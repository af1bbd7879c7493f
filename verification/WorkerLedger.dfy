/** What the worker's books say: bytes cached, buffers on loan, and how far pressure is relieved. */
module WorkerLedger {
  import opened Types
  import opened MapFold
  import opened FileBuffer
  import opened Writing
  import opened WriterInvariant
  import opened WriterRuns
  import opened Loans
  import opened Assembly
  import opened WorkerMoves
  import opened WorkerFiles

  ghost const Sound: FileProperty := (k, i, f) => Inv(f, [])
  ghost const Anything: Demand := (k, a) => true

  ghost function Totals(s: Worker): map<FileKey, int> {
    map k | k in s.perFile :: s.perFile[k].totalBytes
  }

  ghost function Holdings(s: Worker): map<FileKey, multiset<nat>> {
    map k | k in s.perFile :: HeldBy(s.perFile[k].articles)
  }

  /** The cache has an entry only for open files, and its running total is the sum over them. */
  ghost predicate Ledger(s: Worker) {
    AllFiles(s, Sound, s.limit) && s.used == Sum(Totals(s))
  }

  /** The loans paid back or still held somewhere in the cache. */
  ghost function Owed(s: Worker): multiset<nat> {
    s.freed + Union(Holdings(s))
  }

  lemma SoundIsKept(limit: int)
    ensures Preserved(Sound, Anything, limit)
  {
    forall k: FileKey, i: FileInfo, f: File, op: FileOp | Sound(k, i, f) && Allowed(Anything, k, op)
      ensures Sound(k, i, Step(f, limit, i, op))
    {
      StepKeepsInv(f, limit, i, op);
    }
    forall k: FileKey, i: FileInfo, f: File, freed: multiset<nat> | Sound(k, i, f)
      ensures Sound(k, i, f.(freed := freed))
    {
      SameRecordKeepsInv(f, f.(freed := freed), []);
    }
    forall k: FileKey, i: FileInfo, d: Disk ensures Sound(k, i, NewFile(d)) {
      RunKeepsInv(d, limit, i, []);
    }
  }

  // ----- one file's books

  lemma PutTotals(s: Worker, key: FileKey, f: File)
    requires key in s.open && s.used == Sum(Totals(s))
    ensures PutFile(s, key, f).used == Sum(Totals(PutFile(s, key, f)))
  {
    var t := PutFile(s, key, f);
    if f.buf.Some? {
      assert Totals(t) == Totals(s)[key := f.buf.value.totalBytes];
      SumUpdate(Totals(s), key, f.buf.value.totalBytes);
    } else {
      assert Totals(t) == Totals(s) - {key};
      if key in s.perFile {
        SumRemove(Totals(s), key);
      } else {
        assert Totals(t) == Totals(s);
      }
    }
  }

  /** What the worker holds for one file. */
  ghost function HeldFor(m: map<FileKey, multiset<nat>>, key: FileKey): multiset<nat> {
    if key in m then m[key] else multiset{}
  }

  lemma HeldForOne(s: Worker, key: FileKey)
    requires key in s.open
    ensures HeldFor(Holdings(s), key) == HeldBy(FileOf(s, key).Articles())
  {
    NothingHeld();
  }

  lemma UnionWithout(m: map<FileKey, multiset<nat>>, key: FileKey)
    ensures Union(m - {key}) + HeldFor(m, key) == Union(m)
  {
    if key in m {
      UnionRemove(m, key);
    } else {
      assert m - {key} == m;
    }
  }

  lemma HoldingsAfterPut(s: Worker, key: FileKey, f: File)
    requires key in s.open
    ensures f.buf.Some? ==> Holdings(PutFile(s, key, f)) == Holdings(s)[key := HeldBy(f.Articles())]
    ensures f.buf.None? ==> Holdings(PutFile(s, key, f)) == Holdings(s) - {key}
  {
  }

  lemma PutHoldings(s: Worker, key: FileKey, f: File)
    requires key in s.open
    ensures Union(Holdings(PutFile(s, key, f))) + HeldBy(FileOf(s, key).Articles())
         == Union(Holdings(s)) + HeldBy(f.Articles())
  {
    HeldForOne(s, key);
    HoldingsAfterPut(s, key, f);
    if f.buf.Some? {
      UnionUpdate(Holdings(s), key, HeldBy(f.Articles()));
    } else {
      UnionWithout(Holdings(s), key);
      NothingHeld();
    }
  }

  /** The worker's stock moves by what the file's stock moved by. */
  lemma PutOwed(s: Worker, key: FileKey, f: File, extra: multiset<nat>)
    requires key in s.open && Stock(f) == Stock(FileOf(s, key)) + extra
    ensures Owed(PutFile(s, key, f)) == Owed(s) + extra
  {
    var t := PutFile(s, key, f);
    PutHoldings(s, key, f);
    forall i ensures Owed(t)[i] == (Owed(s) + extra)[i] {
      assert (Union(Holdings(t)) + HeldBy(FileOf(s, key).Articles()))[i] == (Union(Holdings(s)) + HeldBy(f.Articles()))[i];
      assert Stock(f)[i] == (Stock(FileOf(s, key)) + extra)[i];
    }
  }

  /** The cached total stays exact, and this much more is accounted for. */
  ghost predicate Booked(s: Worker, t: Worker, extra: multiset<nat>) {
    t.used == Sum(Totals(t)) && Owed(t) == Owed(s) + extra
  }

  lemma PutBooks(s: Worker, key: FileKey, f: File, extra: multiset<nat>)
    requires key in s.open && s.used == Sum(Totals(s)) && Stock(f) == Stock(FileOf(s, key)) + extra
    ensures Booked(s, PutFile(s, key, f), extra)
  {
    PutTotals(s, key, f);
    PutOwed(s, key, f, extra);
  }

  lemma StepBooks(s: Worker, key: FileKey, op: FileOp)
    requires key in s.open && s.used == Sum(Totals(s)) && CacheAccounted(FileOf(s, key))
    ensures Booked(s, PutFile(s, key, Step(FileOf(s, key), s.limit, s.open[key].info, op)),
                   if op.Arrive? then op.a.data.Loan() else multiset{})
  {
    StepPays(FileOf(s, key), s.limit, s.open[key].info, op);
    PutBooks(s, key, Step(FileOf(s, key), s.limit, s.open[key].info, op),
             if op.Arrive? then op.a.data.Loan() else multiset{});
  }

  lemma FailBooks(s: Worker, key: FileKey, a: BufferedArticle)
    requires key in s.open && s.used == Sum(Totals(s))
    ensures Booked(s, FailAt(s, key, a).0, if FailAt(s, key, a).1 then a.data.Loan() else multiset{})
  {
    var f := FileOf(s, key);
    var (w, admitted) := AdmitPermanentFailure(f.w, a.id);
    var extra := if admitted then a.data.Loan() else multiset{};
    var g := f.(w := w, freed := f.freed + extra);
    assert f.freed + HeldBy(f.Articles()) + extra == f.freed + extra + HeldBy(f.Articles());
    assert f.freed + multiset{} == f.freed;
    PutBooks(s, key, g, extra);
  }

  /** Paying buffers back without touching the cache. */
  lemma PayBooks(s: Worker, t: Worker, extra: multiset<nat>)
    requires s.used == Sum(Totals(s)) && t.used == s.used && t.perFile == s.perFile && t.freed == s.freed + extra
    ensures Booked(s, t, extra)
  {
  }

  lemma CloseBooks(s: Worker, key: FileKey, ending: Ending)
    requires key in s.open && s.used == Sum(Totals(s))
    ensures Booked(s, Close(s, key, ending), multiset{})
  {
    var t := Close(s, key, ending);
    assert Totals(t) == Totals(s) - {key};
    assert Holdings(t) == Holdings(s) - {key};
    if key in s.perFile {
      var held := HeldBy(s.perFile[key].articles);
      SumRemove(Totals(s), key);
      UnionRemove(Holdings(s), key);
      assert s.freed + held + Union(Holdings(t)) == s.freed + (held + Union(Holdings(t)));
    } else {
      PayBooks(s, t, multiset{});
    }
  }

  // ----- moves

  /** The loans a move takes charge of. */
  ghost function Taking(s: Worker, m: Move, A: Demand): multiset<nat>
    requires Can(s, m, A)
  {
    match m
    case Deliver(_, a) => a.data.Loan()
    case DeliverFailed(key, a) => if FailAt(s, key, a).1 then a.data.Loan() else multiset{}
    case DeliverLate(_, a) => a.data.Loan()
    case DeliverUnopened(_, a) => a.data.Loan() + a.data.Loan()
    case Drop(a) => a.data.Loan()
    case _ => multiset{}
  }

  lemma MoveBooks(s: Worker, m: Move, A: Demand)
    requires Ledger(s) && Can(s, m, A)
    ensures Booked(s, Do(s, m, A), Taking(s, m, A))
  {
    match m
    case Deliver(key, a) =>
      OpenFileIsSound(s, key);
      StepBooks(s, key, Arrive(a));
    case DeliverFailed(key, a) => FailBooks(s, key, a);
    case Act(key, op) =>
      OpenFileIsSound(s, key);
      StepBooks(s, key, op);
    case Release(key) => ReleaseBooks(s, key);
    case End(key, ending) => CloseBooks(s, key, ending);
    case _ => OtherBooks(s, m, A);
  }

  lemma OpenFileIsSound(s: Worker, key: FileKey)
    requires Ledger(s) && key in s.open
    ensures CacheAccounted(FileOf(s, key))
  {
  }

  lemma ReleaseBooks(s: Worker, key: FileKey)
    requires key in s.open && s.used == Sum(Totals(s))
    ensures Booked(s, ReleaseFaulted(s, key), multiset{})
  {
    var t := PutFile(s, key, TakeFaulted(FileOf(s, key)));
    PutBooks(s, key, TakeFaulted(FileOf(s, key)), multiset{});
    assert Totals(ReleaseFaulted(s, key)) == Totals(t) && Holdings(ReleaseFaulted(s, key)) == Holdings(t);
  }

  lemma OtherBooks(s: Worker, m: Move, A: Demand)
    requires s.used == Sum(Totals(s)) && s.perFile.Keys <= s.open.Keys && Can(s, m, A)
    requires !m.Deliver? && !m.DeliverFailed? && !m.Act? && !m.Release? && !m.End?
    ensures Booked(s, Do(s, m, A), Taking(s, m, A))
  {
    var t := Do(s, m, A);
    match m
    case DeliverLate(_, a) => PayBooks(s, t, a.data.Loan());
    case DeliverUnopened(_, a) =>
      var loan := a.data.Loan();
      assert s.freed + loan + loan == s.freed + (loan + loan);
      PayBooks(s, t, loan + loan);
    case Drop(a) => PayBooks(s, t, a.data.Loan());
    case Discard(key) => assert false;
    case _ => PayBooks(s, t, multiset{});
  }

  lemma MoveKeepsLedger(s: Worker, m: Move)
    requires Ledger(s) && Can(s, m, Anything)
    ensures Ledger(Do(s, m, Anything))
  {
    SoundIsKept(s.limit);
    MoveKeepsFiles(s, m, Sound, Anything, s.limit);
    MoveBooks(s, m, Anything);
  }

  /** In every run the cached total is exact and the cache knows no file that is not open. */
  lemma CacheIsAccountedFor(limit: int, reqs: seq<Request>, fates: seq<Fate>)
    requires |fates| == |reqs|
    ensures var s := Serve(NewWorker(limit), reqs, fates);
            && Ledger(s)
            && (forall k | k in s.perFile :: k in s.open && s.perFile[k].totalBytes == BytesIn(s.perFile[k].articles))
  {
    var s := Serve(NewWorker(limit), reqs, fates);
    assert Totals(NewWorker(limit)) == map[];
    LedgerIsStable();
    ServeKeeps(NewWorker(limit), reqs, fates, Ledger, Anything);
    forall k | k in s.perFile ensures k in s.open && Accounted(s.perFile[k]) {
      assert Sound(k, s.open[k].info, FileOf(s, k));
    }
  }

  /** In every run an open file's part count is the number of its articles accepted or failed for good. */
  lemma PartCountIsExact(limit: int, reqs: seq<Request>, fates: seq<Fate>, key: FileKey)
    requires |fates| == |reqs| && key in Serve(NewWorker(limit), reqs, fates).open
    ensures var w := Serve(NewWorker(limit), reqs, fates).open[key].w;
            w.partsWritten == |w.seenDone + w.seenFailed|
  {
    var s := Serve(NewWorker(limit), reqs, fates);
    CacheIsAccountedFor(limit, reqs, fates);
    assert Sound(key, s.open[key].info, FileOf(s, key));
  }

  lemma LedgerIsStable()
    ensures Stable(Ledger, Anything)
  {
    forall s: Worker, m: Move | Ledger(s) && Can(s, m, Anything) ensures Ledger(Do(s, m, Anything)) {
      MoveKeepsLedger(s, m);
    }
  }

  // ----- buffers

  /** How a request's buffer is accounted: once, twice after a failed open, never if a counted article fails again. */
  ghost function Charged(s: Worker, req: Request, fate: Fate): multiset<nat> {
    if !req.Article? then multiset{}
    else if TwiceReleased(s, req, fate) then req.a.data.Loan() + req.a.data.Loan()
    else if NeverReleased(s, req, fate) then multiset{}
    else req.a.data.Loan()
  }

  ghost predicate ReachesFile(s: Worker, req: Request) {
    req.Article? && req.key.jobID !in s.cancelled && req.key !in s.completed
  }

  ghost predicate TwiceReleased(s: Worker, req: Request, fate: Fate) {
    ReachesFile(s, req) && req.key !in s.open && fate.opening.OpenFailed?
  }

  ghost predicate NeverReleased(s: Worker, req: Request, fate: Fate) {
    && ReachesFile(s, req) && req.fatal && req.key in s.open
    && (req.a.id in s.open[req.key].w.seenFailed || req.a.id in s.open[req.key].w.seenDone)
  }

  lemma FreeMovesKeepOwed(M: multiset<nat>)
    ensures Steady((s: Worker) => Ledger(s) && Owed(s) == M, Anything)
  {
    forall s: Worker, m: Move | Ledger(s) && Owed(s) == M && Free(s, m, Anything)
      ensures Ledger(Do(s, m, Anything)) && Owed(Do(s, m, Anything)) == M
    {
      MoveKeepsLedger(s, m);
      MoveBooks(s, m, Anything);
    }
  }

  lemma DeliveryCharges(s: Worker, key: FileKey, a: BufferedArticle, fatal: bool, victims: seq<FileKey>)
    requires Ledger(s) && key in s.open && key !in s.completed
    ensures var m := if fatal then DeliverFailed(key, a) else Deliver(key, a);
            Owed(AtOpenFile(s, key, a, fatal, victims)) == Owed(s) + Taking(s, m, Anything)
  {
    var m := if fatal then DeliverFailed(key, a) else Deliver(key, a);
    var M := Owed(s) + Taking(s, m, Anything);
    MoveKeepsLedger(s, m);
    MoveBooks(s, m, Anything);
    FreeMovesKeepOwed(M);
    AtOpenFileKeeps(s, key, a, fatal, victims, (s: Worker) => Ledger(s) && Owed(s) == M, Anything);
  }

  lemma OpeningBooks(s: Worker, key: FileKey, info: FileInfo, handle: Disk)
    requires Ledger(s) && key !in s.open && key !in s.completed && key.jobID !in s.cancelled
    ensures Ledger(OpenTarget(s, key, info, handle)) && Owed(OpenTarget(s, key, info, handle)) == Owed(s)
  {
    MoveKeepsLedger(s, Open(key, info, handle));
    PayBooks(s, OpenTarget(s, key, info, handle), multiset{});
  }

  /** A file just opened has counted nobody, so whatever arrives is taken charge of. */
  lemma FreshFileTakes(t: Worker, key: FileKey, a: BufferedArticle, fatal: bool, handle: Disk)
    requires key in t.open && t.open[key].w == NewWriter(handle)
    ensures Taking(t, if fatal then DeliverFailed(key, a) else Deliver(key, a), Anything) == a.data.Loan()
  {
  }

  lemma FirstDeliveryCharges(s: Worker, key: FileKey, a: BufferedArticle, fatal: bool, info: FileInfo, handle: Disk,
                             victims: seq<FileKey>)
    requires Ledger(s) && key !in s.open && key !in s.completed && key.jobID !in s.cancelled
    ensures Owed(AtOpenFile(OpenTarget(s, key, info, handle), key, a, fatal, victims)) == Owed(s) + a.data.Loan()
  {
    var t := OpenTarget(s, key, info, handle);
    OpeningBooks(s, key, info, handle);
    FreshFileTakes(t, key, a, fatal, handle);
    DeliveryCharges(t, key, a, fatal, victims);
  }

  lemma OpeningCharges(s: Worker, key: FileKey, a: BufferedArticle, fatal: bool, fate: Fate)
    requires Ledger(s) && ReachesFile(s, Article(key, a, fatal)) && key !in s.open
    ensures var req := Article(key, a, fatal); Owed(Dispatch(s, req, fate)) == Owed(s) + Charged(s, req, fate)
  {
    if fate.opening.OpenFailed? {
      OtherBooks(s, DeliverUnopened(key, a), Anything);
    } else {
      FirstDeliveryCharges(s, key, a, fatal, fate.opening.info, fate.opening.handle, fate.victims);
    }
  }

  lemma ArticleCharges(s: Worker, key: FileKey, a: BufferedArticle, fatal: bool, fate: Fate)
    requires Ledger(s)
    ensures var req := Article(key, a, fatal); Owed(Dispatch(s, req, fate)) == Owed(s) + Charged(s, req, fate)
  {
    if key.jobID in s.cancelled {
      OtherBooks(s, Drop(a), Anything);
    } else if key in s.completed {
      OtherBooks(s, DeliverLate(key, a), Anything);
    } else if key in s.open {
      DeliveryCharges(s, key, a, fatal, fate.victims);
    } else {
      OpeningCharges(s, key, a, fatal, fate);
    }
  }

  lemma DispatchCharges(s: Worker, req: Request, fate: Fate)
    requires Ledger(s)
    ensures Owed(Dispatch(s, req, fate)) == Owed(s) + Charged(s, req, fate)
  {
    if req.Article? {
      ArticleCharges(s, req.key, req.a, req.fatal, fate);
    } else if req.ForgetJob? {
      OtherBooks(s, Revive(req.job), Anything);
    } else {
      FreeMovesKeepOwed(Owed(s));
      var M := Owed(s);
      ControlKeeps(s, req, fate, (s: Worker) => Ledger(s) && Owed(s) == M, Anything);
    }
  }

  /** The loans of all the articles a run was handed. */
  function Received(reqs: seq<Request>): multiset<nat>
    decreases |reqs|
  {
    if reqs == [] then multiset{}
    else
      var req := reqs[|reqs| - 1];
      Received(reqs[..|reqs| - 1]) + (if req.Article? then req.a.data.Loan() else multiset{})
  }

  /** The request's buffer changes hands exactly once. */
  ghost predicate PaysOnce(s: Worker, req: Request, fate: Fate) {
    req.Article? && req.a.data.Buf? ==> !TwiceReleased(s, req, fate) && !NeverReleased(s, req, fate)
  }

  ghost predicate AllPayOnce(s: Worker, reqs: seq<Request>, fates: seq<Fate>)
    requires |fates| == |reqs|
    decreases |reqs|
  {
    reqs == [] ||
    var n := |reqs| - 1;
    AllPayOnce(s, reqs[..n], fates[..n]) && PaysOnce(Serve(s, reqs[..n], fates[..n]), reqs[n], fates[n])
  }

  /** One request keeps the books straight exactly when its open does not fail and it is not a repeated failure with data. */
  lemma RequestPaysOnce(s: Worker, req: Request, fate: Fate)
    requires Ledger(s)
    ensures Owed(Dispatch(s, req, fate)) == Owed(s) + (if req.Article? then req.a.data.Loan() else multiset{})
        <==> PaysOnce(s, req, fate)
  {
    DispatchCharges(s, req, fate);
    if req.Article? && req.a.data.Buf? {
      var id := req.a.data.id;
      assert (Owed(s) + req.a.data.Loan())[id] == Owed(s)[id] + 1;
      assert (Owed(s) + Charged(s, req, fate))[id] == Owed(s)[id] + Charged(s, req, fate)[id];
    }
  }

  /**
   * Over every run, every buffer handed in is at any moment either paid back or still cached, once:
   * written, coalesced, duplicate, refused, displaced, flushed under pressure, left over from a broken
   * batch, or forgotten with its file.
   */
  lemma {:induction false} BuffersComeBackOnce(limit: int, reqs: seq<Request>, fates: seq<Fate>)
    requires |fates| == |reqs| && AllPayOnce(NewWorker(limit), reqs, fates)
    ensures Owed(Serve(NewWorker(limit), reqs, fates)) == Received(reqs)
    decreases |reqs|
  {
    if reqs == [] {
      assert Holdings(NewWorker(limit)) == map[];
    } else {
      var n := |reqs| - 1;
      BuffersComeBackOnce(limit, reqs[..n], fates[..n]);
      CacheIsAccountedFor(limit, reqs[..n], fates[..n]);
      RequestPaysOnce(Serve(NewWorker(limit), reqs[..n], fates[..n]), reqs[n], fates[n]);
    }
  }

  /** With no file open, each has come back. */
  lemma NothingIsLeftOnLoan(limit: int, reqs: seq<Request>, fates: seq<Fate>)
    requires |fates| == |reqs| && AllPayOnce(NewWorker(limit), reqs, fates)
    requires Serve(NewWorker(limit), reqs, fates).open == map[]
    ensures Serve(NewWorker(limit), reqs, fates).freed == Received(reqs)
  {
    BuffersComeBackOnce(limit, reqs, fates);
    CacheIsAccountedFor(limit, reqs, fates);
    assert Holdings(Serve(NewWorker(limit), reqs, fates)) == map[];
  }
}
