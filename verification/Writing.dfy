/** One open file: the FileWriter's record of its articles, its cache entry, and the file itself, as values. */
module Writing {
  import opened Types
  import opened FileBuffer

  /** The article that owns an offset, and whether its bytes have been reported Written. */
  datatype OffsetOwner = OffsetOwner(id: int, written: bool)

  /** An article taken back: by a failed write, or by another article claiming its offset. */
  datatype Faulted =
    | RolledBack(id: int)
    | Displaced(id: int, offset: int, displacer: int, firstCollision: bool)

  datatype Writer = Writer(
    seenDone: set<int>,
    seenFailed: set<int>,
    acceptedAt: map<int, OffsetOwner>,
    partsWritten: int,
    postAnomalyReported: bool,
    written: seq<WrittenArticle>,
    reported: seq<WrittenArticle>,
    faulted: seq<Faulted>,
    handle: Disk,
    // Histories, which the program does not keep: every claim ever made, every article ever taken back,
    // and whether a truncation ever cut into a claim.
    noted: seq<WrittenArticle>,
    rolled: seq<Faulted>,
    cut: bool)

  /** A writer together with its entry in the shared cache and the loans paid back so far. */
  datatype File = File(w: Writer, buf: Option<FileBuf>, freed: multiset<nat>)
  {
    function Articles(): Articles {
      if buf.Some? then buf.value.articles else map[]
    }

    function Buffer(): FileBuf {
      if buf.Some? then buf.value else EMPTY_BUF
    }
  }

  function NewWriter(handle: Disk): Writer {
    Writer({}, {}, map[], 0, false, [], [], [], handle.(log := []), [], [], false)
  }

  // ----- transitions of the record

  function NoteWritten(w: Writer, p: RunPart): Writer {
    var owned := p.offset in w.acceptedAt && w.acceptedAt[p.offset].id == p.id;
    var rec := WrittenArticle(p.id, p.offset, p.length, p.crc32);
    w.(acceptedAt := if owned then w.acceptedAt[p.offset := OffsetOwner(p.id, true)] else w.acceptedAt,
       written := w.written + [rec],
       noted := w.noted + [rec])
  }

  function NoteAll(w: Writer, parts: seq<RunPart>): Writer
    decreases |parts|
  {
    if parts == [] then w else NoteAll(NoteWritten(w, parts[0]), parts[1..])
  }

  function Record(w: Writer, f: Faulted): Writer {
    w.(faulted := w.faulted + [f], rolled := w.rolled + [f])
  }

  function RollbackPart(w: Writer, id: int): Writer {
    w.(seenDone := w.seenDone - {id},
       partsWritten := if id in w.seenDone && id !in w.seenFailed && w.partsWritten > 0
                       then w.partsWritten - 1 else w.partsWritten)
  }

  function Fail(w: Writer, id: int): Writer {
    Record(RollbackPart(w, id), RolledBack(id))
  }

  function FailAll(w: Writer, parts: seq<RunPart>): Writer
    decreases |parts|
  {
    if parts == [] then w else FailAll(Fail(w, parts[0].id), parts[1..])
  }

  function AdmitAccepted(w: Writer, id: int): Writer {
    w.(seenDone := w.seenDone + {id}, partsWritten := w.partsWritten + 1)
  }

  function AdmitRetryOfFailed(w: Writer, id: int): Writer {
    w.(seenDone := w.seenDone + {id})
  }

  function AdmitPermanentFailure(w: Writer, id: int): (Writer, bool) {
    var isNew := id !in w.seenFailed && id !in w.seenDone;
    (w.(seenFailed := w.seenFailed + {id},
        partsWritten := if isNew then w.partsWritten + 1 else w.partsWritten), isNew)
  }

  function FailPermanent(w: Writer, id: int): Writer {
    w.(seenDone := w.seenDone - {id}, seenFailed := w.seenFailed + {id})
  }

  function FailDisplaced(w: Writer, id: int, off: int, displacer: int): Writer {
    Record(AdmitPermanentFailure(w, id).0, Displaced(id, off, displacer, !w.postAnomalyReported))
      .(postAnomalyReported := true)
  }

  function OffsetSettledBy(w: Writer, off: int, arriving: int): bool {
    off in w.acceptedAt && w.acceptedAt[off].id != arriving && w.acceptedAt[off].written
  }

  // ----- writes

  function WriteOne(f: File, a: BufferedArticle): (File, bool) {
    var (d, ok) := WriteAt(f.w.handle, a.data.Bytes(), a.offset);
    var w := f.w.(handle := d);
    (File(if ok then NoteWritten(w, PartOf(a)) else Fail(w, a.id), f.buf, f.freed + a.data.Loan()), ok)
  }

  /** The articles a stopped flush never attempted: buffers paid back, parts given back. */
  function Abandon(f: File, rest: seq<BufferedArticle>): File
    decreases |rest|
  {
    if rest == [] then f
    else Abandon(f.(w := Fail(f.w, rest[0].id), freed := f.freed + rest[0].data.Loan()), rest[1..])
  }

  /** Write in order, stopping at the first fault. */
  function WriteInOrder(f: File, arts: seq<BufferedArticle>): (File, bool)
    decreases |arts|
  {
    if arts == [] then (f, true)
    else
      var (g, ok) := WriteOne(f, arts[0]);
      if ok then WriteInOrder(g, arts[1..]) else (Abandon(g, arts[1..]), false)
  }

  function WriteRun(f: File, run: FlushRun): (File, bool) {
    var (d, ok) := WriteAt(f.w.handle, run.data, run.offset);
    var w := f.w.(handle := d);
    (f.(w := if ok then NoteAll(w, run.parts) else FailAll(w, run.parts)), ok)
  }

  ghost function FlushContiguous(f: File): (File, bool) {
    if f.buf.None? then (f, true)
    else
      var run := Contiguous(f.buf.value.articles, f.buf.value.writeCursor);
      match BuildRun(f.buf.value, CONTIGUOUS_RUN_SIZE)
      case (None, _) => (f, true)
      case (Some(r), fb) => WriteRun(f.(buf := Some(fb), freed := f.freed + LoansOf(run)), r)
  }

  /** The owner of an offset, having made no claim, loses its buffered bytes and is resolved as failed. */
  function Displace(f: File, off: int, id: int): File
    requires off in f.w.acceptedAt
  {
    File(FailDisplaced(f.w, f.w.acceptedAt[off].id, off, id),
         if f.buf.Some? then Some(DropArticle(f.buf.value, off)) else None,
         f.freed + LoanAt(f.Articles(), off))
  }

  function Own(f: File, off: int, id: int): File {
    f.(w := f.w.(acceptedAt := f.w.acceptedAt[off := OffsetOwner(id, false)]))
  }

  /** Take the offset for an arriving article. */
  function Claim(f: File, off: int, id: int): File {
    if off !in f.w.acceptedAt then Own(f, off, id)
    else if f.w.acceptedAt[off].id == id then f
    else Own(Displace(f, off, id), off, id)
  }

  ghost function Accept(f: File, limit: int, a: BufferedArticle): (File, bool) {
    var g := Claim(f, a.offset, a.id);
    if limit > 0 && a.data.Len() > 0 then
      FlushContiguous(g.(buf := Some(PutArticle(g.Buffer(), a)), freed := g.freed + LoanAt(g.Articles(), a.offset)))
    else WriteOne(g, a)
  }

  /** Write out everything buffered: what a drain and a pressure flush have in common. */
  ghost function FlushAll(f: File): (File, bool) {
    if f.buf.None? then (f, true)
    else WriteInOrder(f.(buf := Some(Drained(f.buf.value))), Sorted(f.buf.value.articles))
  }

  function Take(w: Writer): Writer {
    w.(reported := w.reported + w.written, written := [])
  }

  /** The report is the result's w.reported. */
  ghost function Drain(f: File): (File, bool) {
    var (g, ok) := FlushAll(f);
    (g.(w := Take(g.w)), ok)
  }

  function Confirm(f: File): File {
    f.(w := f.w.(reported := []))
  }

  /** Some bytes of the claim lie at or past the bound. */
  predicate CutsInto(r: WrittenArticle, bound: int) {
    r.length > 0 && r.offset + r.length > bound
  }

  predicate Cuts(w: Writer, bound: int) {
    bound >= 0 && exists i :: 0 <= i < |w.noted| && CutsInto(w.noted[i], bound)
  }

  /** What a file keeps of its content when cut to a length. A negative length cuts nothing. */
  function CutTo(c: Content, bound: int): Content {
    if bound < 0 then c else map k | k in c && k < bound :: c[k]
  }

  /** A file is only ever shortened: a bound past its end changes nothing. */
  function Truncate(f: File, bound: int): File {
    f.(w := f.w.(handle := f.w.handle.(bytes := CutTo(f.w.handle.bytes, bound)), cut := f.w.cut || Cuts(f.w, bound)))
  }

  function TakeFaulted(f: File): File {
    f.(w := f.w.(faulted := []))
  }

  // ----- one article arriving at its file

  datatype FileInfo = FileInfo(totalParts: int, expectedSize: int)

  const MAX_INT64 := 0x7FFF_FFFF_FFFF_FFFF
  const OFFSET_SLACK_DIVISOR := 8

  /** Addition of two int64 values, as the hardware does it. */
  function Add64(a: int, b: int): int {
    var s := a + b;
    if s > MAX_INT64 then s - 0x1_0000_0000_0000_0000
    else if s < -MAX_INT64 - 1 then s + 0x1_0000_0000_0000_0000
    else s
  }

  predicate OffsetOutOfRange(info: FileInfo, off: int, n: nat) {
    var end := Add64(off, n);
    off < 0 || end < off ||
    (info.expectedSize > 0
     && info.expectedSize <= MAX_INT64 - info.expectedSize / OFFSET_SLACK_DIVISOR
     && end > info.expectedSize + info.expectedSize / OFFSET_SLACK_DIVISOR)
  }

  /** Why an article is reported rejected. */
  datatype Reason = OutOfRange | OffsetTaken | DisplacedByLater | AfterCompletion

  datatype AcceptResult =
    | Accepted
    | Rejected(reason: Reason, anomaly: bool)
    | WriteFault

  /** Range check, settled-offset check, then the writer. */
  ghost function AcceptArticle(f: File, limit: int, info: FileInfo, a: BufferedArticle): (File, AcceptResult) {
    if OffsetOutOfRange(info, a.offset, a.data.Len()) then
      (f.(w := FailPermanent(f.w, a.id), freed := f.freed + a.data.Loan()), Rejected(OutOfRange, false))
    else if OffsetSettledBy(f.w, a.offset, a.id) then
      (f.(w := FailPermanent(f.w, a.id).(postAnomalyReported := true), freed := f.freed + a.data.Loan()),
       Rejected(OffsetTaken, !f.w.postAnomalyReported))
    else
      var (g, ok) := Accept(f, limit, a);
      (g, if ok then Accepted else WriteFault)
  }

  datatype Arrival =
    | Duplicate
    | Retried(result: AcceptResult)
    | Admitted(result: AcceptResult)

  ghost function HandleSuccess(f: File, limit: int, info: FileInfo, a: BufferedArticle): (File, Arrival) {
    if a.id in f.w.seenDone then (f.(freed := f.freed + a.data.Loan()), Duplicate)
    else if a.id in f.w.seenFailed then
      var (g, r) := AcceptArticle(f.(w := AdmitRetryOfFailed(f.w, a.id)), limit, info, a);
      (g, Retried(r))
    else
      var (g, r) := AcceptArticle(f.(w := AdmitAccepted(f.w, a.id)), limit, info, a);
      (g, Admitted(r))
  }

  // ----- everything that can happen to an open file, in any order

  datatype FileOp =
    | Arrive(a: BufferedArticle)
    | ArriveFailed(id: int)
    | PressureFlush
    | DrainFile
    | ConfirmFile
    | TruncateFile(bound: int)
    | HandBack

  ghost function Step(f: File, limit: int, info: FileInfo, op: FileOp): File {
    match op
    case Arrive(a) => HandleSuccess(f, limit, info, a).0
    case ArriveFailed(id) => f.(w := AdmitPermanentFailure(f.w, id).0)
    case PressureFlush => FlushAll(f).0
    case DrainFile => Drain(f).0
    case ConfirmFile => Confirm(f)
    case TruncateFile(bound) => Truncate(f, bound)
    case HandBack => TakeFaulted(f)
  }

  ghost function Run(f: File, limit: int, info: FileInfo, ops: seq<FileOp>): File
    decreases |ops|
  {
    if ops == [] then f
    else Step(Run(f, limit, info, ops[..|ops| - 1]), limit, info, ops[|ops| - 1])
  }

  ghost function NewFile(handle: Disk): File {
    File(NewWriter(handle), None, multiset{})
  }
}
