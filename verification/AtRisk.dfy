/**
 * The checkpoint protocol around the assembler: articles handed over by the pipeline, counted against
 * their job, and queued first-in-first-out ahead of the barrier's own requests.
 */
module AtRisk {
  import opened Types

  // A delivery is one fetched article on its way through, named by a number of its own.
  datatype World = World(len: nat -> nat, file: nat -> FileKey)
  {
    function Job(t: nat): JobId {
      file(t).jobID
    }
  }

  /** What the assembler's request channel carries. Barrier requests are told apart by number. */
  datatype Msg =
    | Put(t: nat)
    | ListFiles(id: nat)
    | DrainOne(id: nat, key: FileKey)
    | ListJobs(id: nat)

  /** Where one checkpointJob call has got to. */
  datatype Stage =
    | Locked
    | Asking
    | Answered(some: bool)
    | Noted(pending: int)
    | Listing(pending: int)
    | Draining(pending: int, files: set<FileKey>, drained: set<FileKey>, got: set<nat>)

  /**
   * A call that holds its job's lock. before are the deliveries already counted when it last looked at the
   * accumulator, read those whose bytes the figure it read stands for.
   */
  datatype Checkpoint = Checkpoint(id: nat, swept: bool, before: set<nat>, read: set<nat>, stage: Stage)

  /** A call that has acked and given up the lock, and has still to settle. */
  datatype Settling = Settling(job: JobId, swept: bool, before: set<nat>, read: set<nat>, pending: int)

  /** Where a reload has got to. */
  datatype Reload =
    | Running
    | Quiet
    | AskingJobs(id: nat)
    | Sweeping(todo: set<JobId>, unsafe: set<JobId>)
    | Cleared(unsafe: set<JobId>)

  datatype Flow = Flow(
    stopped: bool,
    seen: set<nat>,
    // In the completions channel; taken by the run loop; sent but not yet counted; counted but not yet done.
    arrived: set<nat>,
    handling: set<nat>,
    unnoted: set<nat>,
    finishing: set<nat>,
    inFlight: int,
    // Histories: every delivery the assembler was sent, and every one counted.
    sent: set<nat>,
    counted: set<nat>)

  datatype Tally = Tally(
    bytes: map<JobId, int>,
    settling: map<nat, Settling>,
    // Histories: what each job's settles have taken off, and the jobs where one took off bytes a second time
    // that others would have to pay for.
    taken: map<JobId, set<nat>>,
    overdrawn: set<JobId>)

  datatype State = State(
    flow: Flow,
    reqs: seq<Msg>,
    // Buffered, or written and not yet acked, in a file still open.
    held: set<nat>,
    // Not yet acked when their file was closed: no barrier can ack them any more.
    stranded: set<nat>,
    open: set<FileKey>,
    retired: set<JobId>,
    tally: Tally,
    checkpoints: map<JobId, Checkpoint>,
    minted: nat,
    won: set<JobId>,
    reload: Reload)

  // ----- the accumulator

  function NoteJobBytes(bytes: map<JobId, int>, job: JobId, n: nat): map<JobId, int> {
    if n == 0 then bytes else bytes[job := Pending(bytes, job) + n]
  }

  function Pending(bytes: map<JobId, int>, job: JobId): int {
    if job in bytes then bytes[job] else 0
  }

  function SettleJobBytes(bytes: map<JobId, int>, job: JobId, n: int): map<JobId, int> {
    if n <= 0 then bytes
    else if Pending(bytes, job) - n > 0 then bytes[job := Pending(bytes, job) - n]
    else bytes - {job}
  }

  function JobsAtRisk(bytes: map<JobId, int>): set<JobId> {
    set j | j in bytes && bytes[j] > 0
  }

  /** The application's own accumulator, one entry per job with bytes written since its last barrier. */
  class Accumulator {
    var jobBarrierBytes: map<JobId, int>
    const checkpointBytes: int

    constructor (checkpointBytes: int)
      ensures jobBarrierBytes == map[] && this.checkpointBytes == checkpointBytes
    {
      jobBarrierBytes := map[];
      this.checkpointBytes := checkpointBytes;
    }

    /** Count n bytes; kick says whether the job has reached the volume bound. */
    method NoteBytes(jobID: JobId, n: int) returns (kick: bool)
      modifies this
      ensures jobBarrierBytes == if n <= 0 then old(jobBarrierBytes) else NoteJobBytes(old(jobBarrierBytes), jobID, n)
      ensures kick <==> n > 0 && Pending(jobBarrierBytes, jobID) >= checkpointBytes
    {
      if n <= 0 {
        return false;
      }
      var sum := n;
      if jobID in jobBarrierBytes {
        sum := sum + jobBarrierBytes[jobID];
      }
      jobBarrierBytes := jobBarrierBytes[jobID := sum];
      kick := sum >= checkpointBytes;
    }

    method SettleBytes(jobID: JobId, n: int)
      modifies this
      ensures jobBarrierBytes == SettleJobBytes(old(jobBarrierBytes), jobID, n)
    {
      if n <= 0 {
        return;
      }
      var remaining := -n;
      if jobID in jobBarrierBytes {
        remaining := jobBarrierBytes[jobID] - n;
      }
      if remaining > 0 {
        jobBarrierBytes := jobBarrierBytes[jobID := remaining];
      } else {
        jobBarrierBytes := jobBarrierBytes - {jobID};
      }
    }

    method PendingBytes(jobID: JobId) returns (n: int)
      ensures n == Pending(jobBarrierBytes, jobID)
    {
      n := if jobID in jobBarrierBytes then jobBarrierBytes[jobID] else 0;
    }

    method AtRisk() returns (at: set<JobId>)
      ensures at == JobsAtRisk(jobBarrierBytes)
    {
      at := {};
      var left := jobBarrierBytes.Keys;
      while left != {}
        invariant left <= jobBarrierBytes.Keys
        invariant at == set j | j in jobBarrierBytes && j !in left && jobBarrierBytes[j] > 0
        decreases |left|
      {
        var j :| j in left;
        left := left - {j};
        if jobBarrierBytes[j] > 0 {
          at := at + {j};
        }
      }
    }
  }

  // ----- events

  /** The downloader and the pipeline. */
  datatype FlowEvent =
    | Fetch(t: nat)
    | StopDownloader
    | Pull(t: nat)
    | Send(t: nat)
    | Lose(t: nat)
    | Note(t: nat)
    | Finish(t: nat)

  /** The assembler's worker: the request at the head of its channel, and whatever takes an article back. */
  datatype WorkerEvent =
    // Whether an article's file is open afterwards, and its bytes are there to be acked.
    | Serve(opens: bool, keep: bool)
    | Resolve(t: nat)
    | Finalized(key: FileKey)
    | CloseFile(key: FileKey)
    | Retire(job: JobId)

  /** A checkpoint of one job, step by step. The job's lock is held from Begin to AckJob; a settle comes any time after. */
  datatype CheckpointEvent =
    | Begin(job: JobId)
    | AskFiles(job: JobId)
    | NoFiles(job: JobId)
    | ReadPending(job: JobId)
    | ListAgain(job: JobId)
    | SubmitDrain(job: JobId, key: FileKey)
    | AckJob(job: JobId)
    | Settle(call: nat)
    | GiveUp(job: JobId)

  datatype ReloadEvent =
    | Quiesce
    | AskJobs
    | JobsUnknown
    | JudgeSafe(job: JobId)
    | JudgeUnsafe(job: JobId)
    | Clear
    // The next downloader starts, or fails to.
    | Restart(started: bool)

  datatype Event =
    | OfFlow(f: FlowEvent)
    | OfWorker(w: WorkerEvent)
    | OfCheckpoint(c: CheckpointEvent)
    | OfReload(r: ReloadEvent)

  function StageOf(s: State, job: JobId): Option<Stage> {
    if job in s.checkpoints then Some(s.checkpoints[job].stage) else None
  }

  function Queued(reqs: seq<Msg>): set<nat> {
    set i | 0 <= i < |reqs| && reqs[i].Put? :: reqs[i].t
  }

  /** Deliveries the assembler has been sent whose bytes no barrier has acked and nothing has resolved. */
  function AtRiskNow(s: State): set<nat> {
    Queued(s.reqs) + s.held
  }

  predicate FlowEnabled(f: Flow, e: FlowEvent) {
    match e
    case Fetch(t) => !f.stopped && t !in f.seen
    case StopDownloader => true
    case Pull(t) => t in f.arrived
    case Send(t) => t in f.handling
    case Lose(t) => t in f.handling
    case Note(t) => t in f.unnoted
    case Finish(t) => t in f.finishing
  }

  predicate WorkerEnabled(w: World, s: State, e: WorkerEvent) {
    match e
    case Serve(_, _) => s.reqs != []
    case Resolve(t) => t in s.held
    case _ => true
  }

  predicate CheckpointEnabled(s: State, e: CheckpointEvent) {
    match e
    case Begin(job) => job !in s.checkpoints
    case AskFiles(job) => StageOf(s, job) == Some(Locked)
    case NoFiles(job) => StageOf(s, job) == Some(Answered(false))
    case ReadPending(job) => StageOf(s, job) == Some(Answered(true))
    case ListAgain(job) => job in s.checkpoints && s.checkpoints[job].stage.Noted?
    case SubmitDrain(job, key) =>
      job in s.checkpoints && s.checkpoints[job].stage.Draining? && key in s.checkpoints[job].stage.files
    case AckJob(job) =>
      job in s.checkpoints && s.checkpoints[job].stage.Draining?
      && s.checkpoints[job].stage.files <= s.checkpoints[job].stage.drained
    case Settle(call) => call in s.tally.settling
    case GiveUp(job) => job in s.checkpoints
  }

  predicate ReloadEnabled(s: State, e: ReloadEvent) {
    match e
    case Quiesce => s.reload.Running? && s.flow.stopped && s.flow.arrived == {} && s.flow.inFlight == 0
    case AskJobs => s.reload.Quiet?
    case JobsUnknown => s.reload.AskingJobs?
    case JudgeSafe(job) =>
      s.reload.Sweeping? && job in s.reload.todo && (job in s.won || Pending(s.tally.bytes, job) == 0)
    // A checkpoint that came to nothing leaves no job unprotected that has nothing at risk.
    case JudgeUnsafe(job) => s.reload.Sweeping? && job in s.reload.todo && Pending(s.tally.bytes, job) != 0
    case Clear => s.reload.Sweeping? && s.reload.todo == {}
    case Restart(_) => s.reload.Cleared?
  }

  predicate Enabled(w: World, s: State, e: Event) {
    match e
    case OfFlow(f) => FlowEnabled(s.flow, f)
    case OfWorker(x) => WorkerEnabled(w, s, x)
    case OfCheckpoint(c) => CheckpointEnabled(s, c)
    case OfReload(r) => ReloadEnabled(s, r)
  }

  function OpenOf(s: State, job: JobId): set<FileKey> {
    set k | k in s.open && k.jobID == job
  }

  /** The reply to a listing goes to the checkpoint that asked, if it is still waiting. */
  function Reply(s: State, id: nat, job: JobId): Checkpoint
    requires job in s.checkpoints
  {
    var c := s.checkpoints[job];
    if c.id != id then c
    else if c.stage.Asking? then c.(stage := Answered(OpenOf(s, job) != {}))
    else if c.stage.Listing? then c.(stage := Draining(c.stage.pending, OpenOf(s, job), {}, {}))
    else c
  }

  function DrainReply(w: World, s: State, id: nat, key: FileKey, job: JobId): Checkpoint
    requires job in s.checkpoints
  {
    var c := s.checkpoints[job];
    if c.id == id && c.stage.Draining? then
      c.(stage := c.stage.(drained := c.stage.drained + {key},
                           got := c.stage.got + set t | t in s.held && w.file(t) == key))
    else c
  }

  function ServeHead(w: World, s: State, opens: bool, keep: bool): State
    requires s.reqs != []
  {
    var rest := s.(reqs := s.reqs[1..]);
    match s.reqs[0]
    case Put(t) =>
      var open := if opens then s.open + {w.file(t)} else s.open;
      rest.(open := open, held := if keep && w.file(t) in open then s.held + {t} else s.held)
    case ListFiles(id) => rest.(checkpoints := map j | j in s.checkpoints :: Reply(s, id, j))
    case DrainOne(id, key) => rest.(checkpoints := map j | j in s.checkpoints :: DrainReply(w, s, id, key, j))
    case ListJobs(id) =>
      if s.reload == AskingJobs(id) then rest.(reload := Sweeping(set k | k in s.open :: k.jobID, {})) else rest
  }

  function Flowing(w: World, s: State, e: FlowEvent): State {
    var f := s.flow;
    match e
    case Fetch(t) => s.(flow := f.(seen := f.seen + {t}, arrived := f.arrived + {t}))
    case StopDownloader => s.(flow := f.(stopped := true))
    case Pull(t) =>
      s.(flow := f.(arrived := f.arrived - {t}, handling := f.handling + {t}, inFlight := f.inFlight + 1))
    case Send(t) =>
      s.(flow := f.(handling := f.handling - {t}, unnoted := f.unnoted + {t}, sent := f.sent + {t}),
         reqs := s.reqs + [Put(t)])
    case Lose(t) => s.(flow := f.(handling := f.handling - {t}, finishing := f.finishing + {t}))
    case Note(t) =>
      s.(flow := f.(unnoted := f.unnoted - {t}, counted := f.counted + {t}, finishing := f.finishing + {t}),
         tally := s.tally.(bytes := NoteJobBytes(s.tally.bytes, w.Job(t), w.len(t))))
    case Finish(t) => s.(flow := f.(finishing := f.finishing - {t}, inFlight := f.inFlight - 1))
  }

  function Working(w: World, s: State, e: WorkerEvent): State
    requires WorkerEnabled(w, s, e)
  {
    match e
    case Serve(opens, keep) => ServeHead(w, s, opens, keep)
    case Resolve(t) => s.(held := s.held - {t})
    case Finalized(key) => s.(held := set t | t in s.held && w.file(t) != key)
    case CloseFile(key) =>
      var lost := set t | t in s.held && w.file(t) == key;
      s.(open := s.open - {key}, held := s.held - lost, stranded := s.stranded + lost)
    case Retire(job) =>
      s.(retired := s.retired + {job}, tally := s.tally.(bytes := s.tally.bytes - {job}), open := s.open - OpenOf(s, job))
  }

  /** A listing goes into the channel under a number of its own, for this checkpoint to wait for. */
  function Ask(s: State, job: JobId, stage: Stage): State
    requires job in s.checkpoints
  {
    s.(checkpoints := s.checkpoints[job := s.checkpoints[job].(id := s.minted, stage := stage)],
       reqs := s.reqs + [ListFiles(s.minted)], minted := s.minted + 1)
  }

  function TakenBy(s: State, job: JobId): set<nat> {
    if job in s.tally.taken then s.tally.taken[job] else {}
  }

  /** What has been counted for a job, and no settle has taken off. */
  function Untaken(w: World, s: State, job: JobId): set<nat> {
    set t | t in s.flow.counted && w.Job(t) == job && t !in TakenBy(s, job)
  }

  /** Deliveries with bytes that a settle would take off again. */
  function Again(w: World, s: State, c: Settling): set<nat> {
    set t | t in c.read && t in TakenBy(s, c.job) && w.Job(t) == c.job && w.len(t) > 0
  }

  /** Deliveries with bytes that are in the entry, and not in the figure the call had read. */
  function Unread(w: World, s: State, c: Settling): set<nat> {
    set t | t in Untaken(w, s, c.job) && t !in c.read && w.len(t) > 0
  }

  /** The settle takes off bytes another has taken off already, and bytes it never read pay for them. */
  predicate Overdraws(w: World, s: State, c: Settling) {
    Again(w, s, c) != {} && Unread(w, s, c) != {}
  }

  function Settled(w: World, s: State, call: nat): State
    requires call in s.tally.settling
  {
    var c := s.tally.settling[call];
    s.(tally := Tally(SettleJobBytes(s.tally.bytes, c.job, c.pending), s.tally.settling - {call},
                      s.tally.taken[c.job := TakenBy(s, c.job) + c.read],
                      if Overdraws(w, s, c) then s.tally.overdrawn + {c.job} else s.tally.overdrawn),
       won := if c.swept then s.won + {c.job} else s.won)
  }

  function Checking(w: World, s: State, e: CheckpointEvent): State
    requires CheckpointEnabled(s, e)
  {
    match e
    case Begin(job) =>
      var swept := s.reload.Sweeping? && job in s.reload.todo;
      s.(checkpoints := s.checkpoints[job := Checkpoint(s.minted, swept, s.flow.counted, {}, Locked)], minted := s.minted + 1)
    case AskFiles(job) => Ask(s, job, Asking)
    case NoFiles(job) =>
      s.(checkpoints := s.checkpoints - {job}, won := if s.checkpoints[job].swept then s.won + {job} else s.won)
    case ReadPending(job) =>
      s.(checkpoints := s.checkpoints[job := s.checkpoints[job].(before := s.flow.counted,
                                                                 read := s.flow.counted - TakenBy(s, job),
                                                                 stage := Noted(Pending(s.tally.bytes, job)))])
    case ListAgain(job) => Ask(s, job, Listing(s.checkpoints[job].stage.pending))
    case SubmitDrain(job, key) => s.(reqs := s.reqs + [DrainOne(s.checkpoints[job].id, key)])
    case AckJob(job) =>
      var c := s.checkpoints[job];
      s.(held := s.held - c.stage.got, checkpoints := s.checkpoints - {job},
         tally := s.tally.(settling := s.tally.settling[s.minted := Settling(job, c.swept, c.before, c.read, c.stage.pending)]),
         minted := s.minted + 1)
    case Settle(call) => Settled(w, s, call)
    case GiveUp(job) => s.(checkpoints := s.checkpoints - {job})
  }

  function Reloading(s: State, e: ReloadEvent): State
    requires ReloadEnabled(s, e)
  {
    match e
    case Quiesce => s.(reload := Quiet, won := {})
    case AskJobs => s.(reload := AskingJobs(s.minted), reqs := s.reqs + [ListJobs(s.minted)], minted := s.minted + 1)
    case JobsUnknown => s.(reload := Sweeping({}, JobsAtRisk(s.tally.bytes)))
    case JudgeSafe(job) => s.(reload := Sweeping(s.reload.todo - {job}, s.reload.unsafe))
    case JudgeUnsafe(job) => s.(reload := Sweeping(s.reload.todo - {job}, s.reload.unsafe + {job}))
    case Clear => s.(reload := Cleared(s.reload.unsafe))
    case Restart(started) =>
      s.(flow := s.flow.(stopped := !started), reload := Running, won := {},
         checkpoints := map j | j in s.checkpoints :: s.checkpoints[j].(swept := false),
         tally := s.tally.(settling := map i | i in s.tally.settling :: s.tally.settling[i].(swept := false)))
  }

  function Happen(w: World, s: State, e: Event): State
    requires Enabled(w, s, e)
  {
    match e
    case OfFlow(f) => Flowing(w, s, f)
    case OfWorker(x) => Working(w, s, x)
    case OfCheckpoint(c) => Checking(w, s, c)
    case OfReload(r) => Reloading(s, r)
  }

  ghost function History(w: World, events: seq<Event>): State
    decreases |events|
  {
    if events == [] then Initially
    else
      var s := History(w, events[..|events| - 1]);
      if Enabled(w, s, events[|events| - 1]) then Happen(w, s, events[|events| - 1]) else s
  }

  const Initially := State(Flow(false, {}, {}, {}, {}, {}, 0, {}, {}), [], {}, {}, {}, {}, Tally(map[], map[], map[], {}), map[], 0, {}, Running)
}
