/** The assembler's worker: every open file, the shared cache, the tombstones, and the calls it makes. */
module Assembly {
  import opened Types
  import opened FileBuffer
  import opened Writing

  datatype OpenFile = OpenFile(w: Writer, info: FileInfo)

  /** The callbacks a request can raise, in the order they are raised. */
  datatype Call =
    | ArticlesUnwritten(key: FileKey, arts: seq<int>)
    | ArticleRejected(key: FileKey, art: int, reason: Reason)
    | PostAnomaly(key: FileKey)
    | WriteFaulted(key: FileKey)
    // The call carries the key alone; the rest records the state it was made in.
    | FileComplete(key: FileKey, info: FileInfo, file: File)

  /** How a file left the open set. */
  datatype Ending = Handed | Deleted | Kept(drained: bool)

  /** A file's time in the open set, from its opening to its closing; or the one article of a failed opening. */
  datatype Episode =
    | Closed(key: FileKey, w: Writer, info: FileInfo, ending: Ending)
    | NeverOpened(key: FileKey, id: int)

  datatype Worker = Worker(
    limit: int,
    used: int,
    perFile: map<FileKey, FileBuf>,
    open: map<FileKey, OpenFile>,
    completed: set<FileKey>,
    cancelled: set<JobId>,
    freed: multiset<nat>,
    calls: seq<Call>,
    // Histories the program does not keep: each writer as it was when its handle was closed, and each
    // job forgotten.
    past: seq<Episode>,
    revived: seq<JobId>)

  function NewWorker(limit: int): Worker {
    Worker(limit, 0, map[], map[], {}, {}, multiset{}, [], [], [])
  }

  /** The same files are open, finished and cancelled. */
  ghost predicate SameScope(s: Worker, t: Worker) {
    t.open.Keys == s.open.Keys && t.completed == s.completed && t.cancelled == s.cancelled && t.limit == s.limit
  }

  // ----- one file inside the worker

  function FileOf(s: Worker, key: FileKey): File
    requires key in s.open
  {
    File(s.open[key].w, BufAt(s.perFile, key), s.freed)
  }

  function PutFile(s: Worker, key: FileKey, f: File): (t: Worker)
    requires key in s.open
    ensures SameScope(s, t)
  {
    s.(open := s.open[key := s.open[key].(w := f.w)],
       perFile := if f.buf.Some? then s.perFile[key := f.buf.value] else s.perFile - {key},
       used := s.used - TotalOf(BufAt(s.perFile, key)) + TotalOf(f.buf),
       freed := f.freed)
  }

  function Say(s: Worker, calls: seq<Call>): Worker {
    s.(calls := s.calls + calls)
  }

  // ----- routing what was taken back

  function RejectOne(key: FileKey, r: Faulted): seq<Call> {
    match r
    case RolledBack(_) => []
    case Displaced(id, _, _, first) =>
      [ArticleRejected(key, id, DisplacedByLater)] + if first then [PostAnomaly(key)] else []
  }

  function RejectCalls(key: FileKey, rolled: seq<Faulted>): seq<Call>
    decreases |rolled|
  {
    if rolled == [] then [] else RejectOne(key, rolled[0]) + RejectCalls(key, rolled[1..])
  }

  function UnwrittenIds(rolled: seq<Faulted>): seq<int>
    decreases |rolled|
  {
    if rolled == [] then []
    else (if rolled[0].RolledBack? then [rolled[0].id] else []) + UnwrittenIds(rolled[1..])
  }

  function UnwrittenCall(key: FileKey, arts: seq<int>): seq<Call> {
    if arts == [] then [] else [ArticlesUnwritten(key, arts)]
  }

  function RouteCalls(key: FileKey, rolled: seq<Faulted>): seq<Call> {
    RejectCalls(key, rolled) + UnwrittenCall(key, UnwrittenIds(rolled))
  }

  function ReleaseFaulted(s: Worker, key: FileKey): (t: Worker)
    requires key in s.open
    ensures SameScope(s, t)
  {
    Say(PutFile(s, key, TakeFaulted(FileOf(s, key))), RouteCalls(key, s.open[key].w.faulted))
  }

  // ----- memory pressure

  predicate Pressure(s: Worker) {
    s.limit > 0 && s.used * 10 > s.limit * 9
  }

  /** A file no other file buffers more than. Which one, among equals, is map iteration order. */
  ghost predicate IsLargest(s: Worker, key: FileKey) {
    && key in s.perFile && s.perFile[key].totalBytes > 0
    && forall k | k in s.perFile :: s.perFile[k].totalBytes <= s.perFile[key].totalBytes
  }

  /** The cache entry of a file nobody has open: its bytes are given up. */
  ghost function DiscardUnknown(s: Worker, key: FileKey): Worker
    requires key in s.perFile
  {
    s.(perFile := s.perFile[key := Drained(s.perFile[key])],
       used := s.used - s.perFile[key].totalBytes,
       freed := s.freed + LoansOf(Sorted(s.perFile[key].articles)))
  }

  /** Flush one file, and whether relieving pressure goes on after it. */
  ghost function FlushVictim(s: Worker, key: FileKey): (r: (Worker, bool))
    ensures SameScope(s, r.0)
  {
    if key !in s.perFile || s.perFile[key].articles == map[] then (s, false)
    else if key !in s.open then (DiscardUnknown(s, key), true)
    else
      var (f, ok) := FlushAll(FileOf(s, key));
      var t := PutFile(s, key, f);
      if ok then (t, true) else (Say(ReleaseFaulted(t, key), [WriteFaulted(key)]), false)
  }

  ghost function RelievePressure(s: Worker, victims: seq<FileKey>): (t: Worker)
    ensures SameScope(s, t)
    decreases |victims|
  {
    if !Pressure(s) || victims == [] then s
    else
      var (t, more) := FlushVictim(s, victims[0]);
      if more then RelievePressure(t, victims[1..]) else t
  }

  /** The victims are the ones the worker picks: always a largest file, and until there is no more to do. */
  ghost predicate Schedule(s: Worker, victims: seq<FileKey>)
    decreases |victims|
  {
    if !Pressure(s) || (forall k | k in s.perFile :: s.perFile[k].totalBytes <= 0) then victims == []
    else
      && victims != [] && IsLargest(s, victims[0])
      && var (t, more) := FlushVictim(s, victims[0]);
         if more then Schedule(t, victims[1..]) else victims == [victims[0]]
  }

  // ----- requests

  /** What opening a target file comes to. */
  datatype Opening = OpenFailed | OpenedAs(info: FileInfo, handle: Disk)

  datatype Request =
    | Article(key: FileKey, a: BufferedArticle, fatal: bool)
    | CancelJob(job: JobId, keep: bool)
    | CloseHandles(job: JobId)
    | ForgetJob(job: JobId)
    | SyncDrain(key: FileKey)
    | SyncConfirm(key: FileKey)
    | SyncTruncate(key: FileKey, bound: int)
    | SyncClose(key: FileKey)
    | SyncFiles(job: JobId)
    | SyncJobs
    | SyncFsync(key: FileKey)
    | SyncStat(key: FileKey)

  /** A storage fault, as classified: one that waiting cannot clear is permanent. */
  datatype StorageFault = StorageFault(permanent: bool)

  /** What the operations on one file's handle come to, writes apart: the fault a write that fails is classified as. */
  datatype Storage = Storage(
    write: StorageFault,
    sync: Option<StorageFault>,
    stat: Option<StorageFault>,
    size: int,
    truncate: Option<StorageFault>,
    close: Option<StorageFault>)

  const HEALTHY := Storage(StorageFault(false), None, None, 0, None, None)

  /** What the world decides about a request: the open, the pressure victims, the order of a map range, the storage. */
  datatype Fate = Fate(opening: Opening, victims: seq<FileKey>, order: seq<FileKey>, storage: Storage := HEALTHY)

  function LateDuplicate(s: Worker, key: FileKey, a: BufferedArticle): Worker {
    var t := s.(freed := s.freed + a.data.Loan());
    if key in s.open && a.id !in s.open[key].w.seenDone && a.id !in s.open[key].w.seenFailed
    then Say(t, [ArticleRejected(key, a.id, AfterCompletion)])
    else t
  }

  /** Both the failed open and its caller return the article's buffer. */
  function OpenFailure(s: Worker, key: FileKey, a: BufferedArticle): Worker {
    Say(s.(freed := s.freed + a.data.Loan() + a.data.Loan(), past := s.past + [NeverOpened(key, a.id)]),
        [ArticlesUnwritten(key, [a.id]), WriteFaulted(key)])
  }

  function RouteAccept(s: Worker, key: FileKey, id: int, r: AcceptResult): (t: Worker)
    requires key in s.open
    ensures SameScope(s, t)
  {
    match r
    case Accepted => s
    case Rejected(reason, anomaly) =>
      Say(s, [ArticleRejected(key, id, reason)] + if anomaly then [PostAnomaly(key)] else [])
    case WriteFault => Say(ReleaseFaulted(s, key), [WriteFaulted(key)])
  }

  /** A permanently failed article: counted, nothing written, and its buffer returned only if it was counted. */
  function FailAt(s: Worker, key: FileKey, a: BufferedArticle): (r: (Worker, bool))
    requires key in s.open
    ensures SameScope(s, r.0)
  {
    var f := FileOf(s, key);
    var (w, admitted) := AdmitPermanentFailure(f.w, a.id);
    (PutFile(s, key, f.(w := w, freed := if admitted then f.freed + a.data.Loan() else f.freed)), admitted)
  }

  ghost function DeliverAt(s: Worker, key: FileKey, a: BufferedArticle): (r: (Worker, Arrival))
    requires key in s.open
    ensures SameScope(s, r.0)
  {
    var (f, arrival) := HandleSuccess(FileOf(s, key), s.limit, s.open[key].info, a);
    (PutFile(s, key, f), arrival)
  }

  /** The article at its open file, and whether it was newly taken on as a part. */
  ghost function TakeOn(s: Worker, key: FileKey, a: BufferedArticle, fatal: bool): (r: (Worker, bool))
    requires key in s.open
    ensures SameScope(s, r.0)
  {
    if fatal then FailAt(s, key, a)
    else
      var (t, arrival) := DeliverAt(s, key, a);
      match arrival
      case Duplicate => (t, false)
      case Retried(r) => (RouteAccept(t, key, a.id, r), false)
      case Admitted(r) => (RouteAccept(t, key, a.id, r), !r.WriteFault?)
  }

  predicate IsComplete(f: OpenFile) {
    0 < f.info.totalParts <= f.w.partsWritten
  }

  function FinalizeFile(s: Worker, key: FileKey): Worker
    requires key in s.open
  {
    Say(s.(completed := s.completed + {key}), [FileComplete(key, s.open[key].info, FileOf(s, key))])
  }

  /** Hand back whatever was taken back, then look whether the file is done. */
  function Settle(s: Worker, key: FileKey, admitted: bool): (t: Worker)
    requires key in s.open
    ensures t.open.Keys == s.open.Keys && t.cancelled == s.cancelled && t.limit == s.limit
  {
    var v := ReleaseFaulted(s, key);
    if admitted && IsComplete(v.open[key]) then FinalizeFile(v, key) else v
  }

  ghost function AtOpenFile(s: Worker, key: FileKey, a: BufferedArticle, fatal: bool, victims: seq<FileKey>): (t: Worker)
    requires key in s.open
    ensures t.open.Keys == s.open.Keys && t.cancelled == s.cancelled && t.limit == s.limit
  {
    var (t, admitted) := TakeOn(s, key, a, fatal);
    Settle(if admitted then RelievePressure(t, victims) else t, key, admitted)
  }

  function OpenTarget(s: Worker, key: FileKey, info: FileInfo, handle: Disk): Worker {
    s.(open := s.open[key := OpenFile(NewWriter(handle), info)])
  }

  ghost function ProcessRequest(s: Worker, key: FileKey, a: BufferedArticle, fatal: bool, fate: Fate): Worker {
    if key in s.completed then LateDuplicate(s, key, a)
    else if key in s.open then AtOpenFile(s, key, a, fatal, fate.victims)
    else match fate.opening
      case OpenFailed => OpenFailure(s, key, a)
      case OpenedAs(info, handle) =>
        AtOpenFile(OpenTarget(s, key, info, handle), key, a, fatal, fate.victims)
  }

  // ----- files leaving the open set

  ghost function Forget(s: Worker, key: FileKey): Worker {
    s.(perFile := s.perFile - {key},
       used := s.used - TotalOf(BufAt(s.perFile, key)),
       freed := s.freed + (if key in s.perFile then HeldBy(s.perFile[key].articles) else multiset{}))
  }

  ghost function Close(s: Worker, key: FileKey, ending: Ending): Worker
    requires key in s.open
  {
    Forget(s.(open := s.open - {key}, past := s.past + [Closed(key, s.open[key].w, s.open[key].info, ending)]), key)
  }

  ghost function DrainAndClose(s: Worker, key: FileKey): Worker
    requires key in s.open
  {
    Close(ReleaseFaulted(PutFile(s, key, Drain(FileOf(s, key)).0), key), key, Handed)
  }

  ghost function CloseCancelled(s: Worker, key: FileKey, keep: bool): Worker
    requires key in s.open
  {
    if keep then
      var (f, ok) := Drain(FileOf(s, key));
      Close(PutFile(s, key, f), key, Kept(ok))
    else Close(s, key, Deleted)
  }

  function Tombstone(s: Worker, key: FileKey): Worker {
    s.(completed := s.completed + {key})
  }

  function Unbury(s: Worker, job: JobId): Worker {
    s.(completed := (set k | k in s.completed && k.jobID != job), cancelled := s.cancelled - {job},
       revived := s.revived + [job])
  }

  ghost function CancelFiles(s: Worker, keys: seq<FileKey>, keep: bool): Worker
    decreases |keys|
  {
    if keys == [] then s
    else
      var t := if keys[0] in s.open then Tombstone(CloseCancelled(s, keys[0], keep), keys[0]) else s;
      CancelFiles(t, keys[1..], keep)
  }

  ghost function CloseFiles(s: Worker, keys: seq<FileKey>): Worker
    decreases |keys|
  {
    if keys == [] then s
    else
      var t := if keys[0] in s.open then Tombstone(DrainAndClose(s, keys[0]), keys[0]) else s;
      CloseFiles(t, keys[1..])
  }

  /** One pass of a range over the open map, restricted to one job. */
  ghost predicate Enumerates(s: Worker, job: JobId, order: seq<FileKey>) {
    && (forall k | k in order :: k in s.open && k.jobID == job)
    && (forall k | k in s.open && k.jobID == job :: k in order)
    && (forall i, j | 0 <= i < j < |order| :: order[i] != order[j])
  }

  // ----- dispatch

  ghost predicate Possible(s: Worker, req: Request, fate: Fate) {
    match req
    case CancelJob(job, _) => Enumerates(s, job, fate.order)
    case CloseHandles(job) => Enumerates(s, job, fate.order)
    case _ => true
  }

  ghost function Dispatch(s: Worker, req: Request, fate: Fate): Worker {
    match req
    case Article(key, a, fatal) =>
      if key.jobID in s.cancelled then s.(freed := s.freed + a.data.Loan())
      else ProcessRequest(s, key, a, fatal, fate)
    case CancelJob(job, keep) => CancelFiles(s.(cancelled := s.cancelled + {job}), fate.order, keep)
    case CloseHandles(job) => CloseFiles(s, fate.order)
    case ForgetJob(job) => Unbury(s, job)
    case SyncDrain(key) =>
      if key in s.open then ReleaseFaulted(PutFile(s, key, Drain(FileOf(s, key)).0), key) else s
    case SyncConfirm(key) =>
      if key in s.open then PutFile(s, key, Confirm(FileOf(s, key))) else s
    case SyncTruncate(key, bound) =>
      if key in s.open && fate.storage.truncate.None? then PutFile(s, key, Truncate(FileOf(s, key), bound)) else s
    case SyncClose(key) =>
      if key in s.open then DrainAndClose(s, key) else s
    case SyncFiles(_) => s
    case SyncJobs => s
    case SyncFsync(_) => s
    case SyncStat(_) => s
  }

  ghost function Serve(s: Worker, reqs: seq<Request>, fates: seq<Fate>): Worker
    requires |fates| == |reqs|
    decreases |reqs|
  {
    if reqs == [] then s
    else
      var n := |reqs| - 1;
      Dispatch(Serve(s, reqs[..n], fates[..n]), reqs[n], fates[n])
  }

  ghost predicate Served(s: Worker, reqs: seq<Request>, fates: seq<Fate>) {
    && |fates| == |reqs|
    && forall i | 0 <= i < |reqs| :: Possible(Serve(s, reqs[..i], fates[..i]), reqs[i], fates[i])
  }
}
