/** The assembler's worker in memory: its open files, tombstones and cache, served one request at a time. */
module Assemblers {
  import opened Types
  import opened FileBuffer
  import opened WriteCaches
  import opened FileWriters
  import opened Assembly
  import opened Replies
  import opened Closings
  import Writing
  import WriterRuns

  lemma OneEntryChanged(m: map<FileKey, FileBuf>, n: map<FileKey, FileBuf>, key: FileKey)
    requires m - {key} == n - {key}
    ensures n == if key in n then m[key := n[key]] else m - {key}
  {
    assert forall k | k != key :: k in n <==> k in n - {key};
    assert forall k | k != key :: k in m <==> k in m - {key};
    assert forall k | k != key && k in n :: n[k] == (n - {key})[k] == (m - {key})[k] == m[k];
  }

  class Assembler {
    const wc: WriteCache
    var open: map<FileKey, FileWriter>
    var infos: map<FileKey, Writing.FileInfo>
    var completed: set<FileKey>
    var cancelledJobs: set<JobId>
    // The callbacks made, and the histories of the model.
    ghost var calls: seq<Call>
    ghost var past: seq<Episode>
    ghost var revived: seq<JobId>

    ghost predicate Valid()
      reads this, wc
    {
      && wc.Valid() && (forall k | k in wc.perFile :: Accounted(wc.perFile[k]))
      && infos.Keys == open.Keys
      && (forall k | k in open :: open[k].key == k && open[k].wc == wc)
      && (forall j, k | j in open && k in open && j != k :: open[j] != open[k])
    }

    ghost function Files(): map<FileKey, OpenFile>
      requires infos.Keys == open.Keys
      reads this, open.Values
    {
      map k | k in open :: OpenFile(open[k].Record(), infos[k])
    }

    ghost function Model(): Worker
      requires infos.Keys == open.Keys
      reads this, wc, wc.pool, open.Values
    {
      Worker(wc.limit, wc.used, wc.perFile, Files(), completed, cancelledJobs, wc.pool.freed, calls, past, revived)
    }

    constructor (limit: int)
      ensures Valid() && Model() == NewWorker(limit) && fresh(wc) && fresh(wc.pool)
    {
      var pool := new Pool();
      wc := new WriteCache(limit, pool);
      open, infos, completed, cancelledJobs := map[], map[], {}, {};
      calls, past, revived := [], [], [];
    }

    twostate lemma OneWriterChanged(key: FileKey)
      requires old(Valid()) && Valid() && key in old(open) && open == old(open) && infos == old(infos)
      requires forall k | k in open && k != key :: open[k].Record() == old(open[k].Record())
      ensures Files() == old(Files())[key := OpenFile(open[key].Record(), infos[key])]
    {
    }

    twostate lemma OneShareChanged(key: FileKey)
      requires old(Valid()) && Valid() && key in old(open) && open == old(open)
      requires open[key].Others() == old(open[key].Others())
      ensures wc.perFile == if key in wc.perFile then old(wc.perFile)[key := wc.perFile[key]] else old(wc.perFile) - {key}
      ensures wc.used == old(wc.used) - TotalOf(old(BufAt(wc.perFile, key))) + TotalOf(BufAt(wc.perFile, key))
    {
      OneEntryChanged(old(wc.perFile), wc.perFile, key);
    }

    /** Only one file's writer and its share of the cache have changed. */
    twostate lemma OneFileChanged(key: FileKey)
      requires old(Valid()) && Valid() && key in old(open)
      requires open == old(open) && infos == old(infos) && completed == old(completed) && cancelledJobs == old(cancelledJobs)
      requires calls == old(calls) && past == old(past) && revived == old(revived)
      requires forall k | k in open && k != key :: open[k].Record() == old(open[k].Record())
      requires open[key].Others() == old(open[key].Others())
      ensures Model() == PutFile(old(Model()), key, open[key].Model())
    {
      OneShareChanged(key);
      OneWriterChanged(key);
    }

    // ----- routing

    /** Nothing but the calls, the histories and the tombstones has changed. */
    twostate lemma FilesUntouched()
      requires old(Valid()) && open == old(open) && infos == old(infos)
      requires forall k | k in open :: open[k].Record() == old(open[k].Record())
      ensures infos.Keys == open.Keys && Files() == old(Files())
    {
    }

    /** Tell the owners of a set of articles taken back what became of them. */
    method RouteFaulted(key: FileKey, rolled: seq<Writing.Faulted>)
      requires Valid()
      modifies this`calls
      ensures Valid() && Model() == Say(old(Model()), RouteCalls(key, rolled))
    {
      var told := CallsFor(key, rolled);
      Tell(told);
    }

    method Tell(more: seq<Call>)
      requires Valid()
      modifies this`calls
      ensures Valid() && Model() == Say(old(Model()), more)
    {
      calls := calls + more;
      FilesUntouched();
    }

    /** The calls a set of articles taken back gives rise to: one per displaced article, then one for the rest. */
    method CallsFor(key: FileKey, rolled: seq<Writing.Faulted>) returns (told: seq<Call>)
      ensures told == RouteCalls(key, rolled)
    {
      told := [];
      var arts: seq<int> := [];
      for i := 0 to |rolled|
        invariant told + RejectCalls(key, rolled[i..]) == RejectCalls(key, rolled)
        invariant arts + UnwrittenIds(rolled[i..]) == UnwrittenIds(rolled)
      {
        RouteOneMore(key, rolled[i..], told, arts);
        assert rolled[i..][1..] == rolled[i + 1..];
        var r := rolled[i];
        if r.Displaced? {
          var warning := if r.firstCollision then [PostAnomaly(key)] else [];
          told := told + ([ArticleRejected(key, r.id, Writing.DisplacedByLater)] + warning);
          assert arts + [] == arts;
        } else {
          arts := arts + [r.id];
          assert told + [] == told;
        }
      }
      assert told + [] == told && arts + [] == arts;
      if arts != [] {
        told := told + [ArticlesUnwritten(key, arts)];
      }
    }

    method TakeFaultedOf(key: FileKey) returns (rolled: seq<Writing.Faulted>)
      requires Valid() && key in open
      modifies open[key]
      ensures Valid() && open == old(open) && infos == old(infos)
      ensures Model() == PutFile(old(Model()), key, Writing.TakeFaulted(FileOf(old(Model()), key)))
      ensures rolled == old(Model()).open[key].w.faulted
    {
      rolled := open[key].TakeFaulted();
      OneFileChanged(key);
    }

    method ReleaseFaulted(key: FileKey)
      requires Valid() && key in open
      modifies this`calls, open[key]
      ensures Valid() && open == old(open) && infos == old(infos)
      ensures Model() == Assembly.ReleaseFaulted(old(Model()), key)
    {
      var rolled := TakeFaultedOf(key);
      RouteFaulted(key, rolled);
    }

    // ----- one article at its file

    method AcceptArticle(f: FileWriter, info: Writing.FileInfo, a: BufferedArticle) returns (r: Writing.AcceptResult)
      requires f.Valid() && f.wc == wc
      modifies f, wc, wc.pool
      ensures f.Valid() && f.Others() == old(f.Others())
      ensures (f.Model(), r) == Writing.AcceptArticle(old(f.Model()), wc.limit, info, a)
    {
      if Writing.OffsetOutOfRange(info, a.offset, a.data.Len()) {
        wc.pool.PutBuffer(a.data);
        f.FailPermanent(a.id);
        return Writing.Rejected(Writing.OutOfRange, false);
      }
      var settled := f.OffsetSettledBy(a.offset, a.id);
      if settled {
        wc.pool.PutBuffer(a.data);
        f.FailPermanent(a.id);
        var first := f.NotePostAnomaly();
        return Writing.Rejected(Writing.OffsetTaken, first);
      }
      var ok := f.Accept(a);
      r := if ok then Writing.Accepted else Writing.WriteFault;
    }

    method HandleSuccessArticle(f: FileWriter, info: Writing.FileInfo, a: BufferedArticle) returns (arrival: Writing.Arrival)
      requires f.Valid() && f.wc == wc
      modifies f, wc, wc.pool
      ensures f.Valid() && f.Others() == old(f.Others())
      ensures (f.Model(), arrival) == Writing.HandleSuccess(old(f.Model()), wc.limit, info, a)
    {
      if a.id in f.seenDone {
        wc.pool.PutBuffer(a.data);
        return Writing.Duplicate;
      }
      var r;
      if a.id in f.seenFailed {
        f.AdmitRetryOfFailed(a.id);
        r := AcceptArticle(f, info, a);
        return Writing.Retried(r);
      }
      f.AdmitAccepted(a.id);
      r := AcceptArticle(f, info, a);
      arrival := Writing.Admitted(r);
    }

    method Deliver(key: FileKey, a: BufferedArticle) returns (arrival: Writing.Arrival)
      requires Valid() && key in open
      modifies open[key], wc, wc.pool
      ensures Valid() && open == old(open) && infos == old(infos)
      ensures (Model(), arrival) == DeliverAt(old(Model()), key, a)
    {
      arrival := HandleSuccessArticle(open[key], infos[key], a);
      OthersStayAccounted(key);
      OneFileChanged(key);
    }

    /** The other files' entries being as they were, they are still accounted for. */
    twostate lemma OthersStayAccounted(key: FileKey)
      requires old(Valid()) && key in old(open) && open == old(open)
      requires open[key].Valid() && open[key].Others() == old(open[key].Others())
      ensures wc.Valid() && forall k | k in wc.perFile :: Accounted(wc.perFile[k])
    {
      forall k | k in wc.perFile ensures Accounted(wc.perFile[k]) {
        if k != key {
          assert k in wc.perFile - {key};
          assert k in old(wc.perFile) - {key};
        }
      }
    }

    method HandleFatalArticle(key: FileKey, a: BufferedArticle) returns (admitted: bool)
      requires Valid() && key in open
      modifies open[key], wc.pool
      ensures Valid() && open == old(open) && infos == old(infos)
      ensures (Model(), admitted) == FailAt(old(Model()), key, a)
    {
      admitted := open[key].AdmitPermanentFailure(a.id);
      if admitted {
        wc.pool.PutBuffer(a.data);
      }
      OneFileChanged(key);
    }

    method RouteAccept(key: FileKey, id: int, r: Writing.AcceptResult)
      requires Valid() && key in open
      modifies this`calls, open[key]
      ensures Valid() && open == old(open) && infos == old(infos)
      ensures Model() == Assembly.RouteAccept(old(Model()), key, id, r)
    {
      match r {
        case Accepted =>
        case Rejected(reason, anomaly) =>
          Tell([ArticleRejected(key, id, reason)] + if anomaly then [PostAnomaly(key)] else []);
        case WriteFault =>
          ReleaseFaulted(key);
          Tell([WriteFaulted(key)]);
      }
    }

    method TakeOn(key: FileKey, a: BufferedArticle, fatal: bool) returns (admitted: bool)
      requires Valid() && key in open
      modifies this`calls, open[key], wc, wc.pool
      ensures Valid() && open == old(open) && infos == old(infos)
      ensures (Model(), admitted) == Assembly.TakeOn(old(Model()), key, a, fatal)
    {
      if fatal {
        admitted := HandleFatalArticle(key, a);
        return;
      }
      var arrival := Deliver(key, a);
      match arrival {
        case Duplicate => admitted := false;
        case Retried(r) =>
          RouteAccept(key, a.id, r);
          admitted := false;
        case Admitted(r) =>
          RouteAccept(key, a.id, r);
          admitted := !r.WriteFault?;
      }
    }

    // ----- memory pressure

    /** Write what was drained from a file, over its own writer. */
    method WriteVictim(key: FileKey, arts: seq<BufferedArticle>) returns (ok: bool)
      requires Valid() && key in open
      modifies open[key], wc.pool
      ensures Valid() && open == old(open) && infos == old(infos)
      ensures var (f, landed) := Writing.WriteInOrder(FileOf(old(Model()), key), arts);
              ok == landed && Model() == PutFile(old(Model()), key, f)
    {
      ok := open[key].WriteInOrder(arts);
      WriterRuns.WriteInOrderKeepsBuffer(old(open[key].Model()), arts);
      OneFileChanged(key);
    }

    /** Articles drained from a file nobody has open are given up. */
    method GiveUp(arts: seq<BufferedArticle>)
      requires Valid()
      modifies wc.pool
      ensures Valid() && Model() == old(Model()).(freed := old(wc.pool.freed) + LoansOf(arts))
    {
      for i := 0 to |arts|
        invariant wc.pool.freed + LoansOf(arts[i..]) == old(wc.pool.freed) + LoansOf(arts)
      {
        assert arts[i..][1..] == arts[i + 1..];
        wc.pool.PutBuffer(arts[i].data);
      }
      FilesUntouched();
    }

    /** Take the largest file out of the cache; none, if nothing is buffered. */
    method DrainLargest() returns (key: FileKey, arts: seq<BufferedArticle>)
      requires Valid()
      modifies wc
      ensures Valid()
      ensures arts == [] ==> Model() == old(Model()) && forall k | k in wc.perFile :: wc.perFile[k].totalBytes <= 0
      ensures arts != [] ==>
                var s := old(Model());
                && IsLargest(s, key) && s.perFile[key].articles != map[] && arts == Sorted(s.perFile[key].articles)
                && Model() == TakenOut(s, key)
    {
      key, arts := wc.ForceFlushLargest();
      FilesUntouched();
      DrainedIsAccounted();
    }

    /** Write what was taken out of the cache for an open file; a fault is routed, and said. */
    method FlushOpen(key: FileKey, arts: seq<BufferedArticle>) returns (ok: bool)
      requires Valid() && key in open
      modifies this`calls, wc.pool, open[key]
      ensures Valid() && open == old(open) && infos == old(infos)
      ensures (Model(), ok) == Rewritten(old(Model()), key, arts)
    {
      ok := WriteVictim(key, arts);
      if !ok {
        ReleaseFaulted(key);
        Tell([WriteFaulted(key)]);
      }
    }

    /** Write what was taken out of the cache for a file, or give it up if nobody has the file open. */
    method FlushTaken(key: FileKey, arts: seq<BufferedArticle>, ghost s: Worker) returns (more: bool)
      requires Valid() && key in s.perFile && s.perFile[key].articles != map[]
      requires arts == Sorted(s.perFile[key].articles) && Model() == TakenOut(s, key)
      modifies this`calls, wc.pool, open.Values
      ensures Valid() && open == old(open) && infos == old(infos)
      ensures (Model(), more) == FlushVictim(s, key)
    {
      if key in open {
        FlushTakesOut(s, key);
        more := FlushOpen(key, arts);
      } else {
        GiveUp(arts);
        more := true;
      }
    }

    /** Flush the largest file; more says whether relieving pressure goes on after it. */
    method FlushLargest() returns (found: bool, key: FileKey, more: bool)
      requires Valid()
      modifies this`calls, wc, wc.pool, open.Values
      ensures Valid() && open == old(open) && infos == old(infos)
      ensures !found ==> Model() == old(Model()) && forall k | k in wc.perFile :: wc.perFile[k].totalBytes <= 0
      ensures found ==>
                IsLargest(old(Model()), key) && old(Model()).perFile[key].articles != map[]
                && (Model(), more) == FlushVictim(old(Model()), key)
    {
      ghost var s := Model();
      var arts;
      key, arts := DrainLargest();
      found, more := arts != [], true;
      if found {
        more := FlushTaken(key, arts, s);
      }
    }

    method InPressure() returns (p: bool)
      requires Valid()
      ensures p <==> Pressure(Model())
    {
      p := wc.InPressure();
    }

    /** One turn of relieving pressure, these victims having been flushed so far. */
    method RelieveOnce(ghost done: seq<FileKey>, ghost R: Relief) returns (more: bool, ghost victims: seq<FileKey>)
      requires Valid() && Guides(R) && R(Model(), done, true)
      modifies this`calls, wc, wc.pool, open.Values
      ensures Valid() && open == old(open) && infos == old(infos)
      ensures R(Model(), victims, more) && (more ==> 0 <= wc.used < old(wc.used) || wc.used < 0 <= old(wc.used))
    {
      ghost var t := Model();
      victims := done;
      more := InPressure();
      if !more {
        return;
      }
      var found, key;
      found, key, more := FlushLargest();
      if !found {
        more := false;
        return;
      }
      victims := done + [key];
      assert FlushVictim(t, key) == (Model(), more);
      if more {
        VictimShrinks(t, key);
      }
    }

    /** While the cache is over its threshold, flush the largest file; stop at the first fault. */
    method RelievePressure() returns (ghost victims: seq<FileKey>)
      requires Valid()
      modifies this`calls, wc, wc.pool, open.Values
      ensures Valid() && open == old(open) && infos == old(infos)
      ensures Relieved(old(Model()), victims, Model())
    {
      ghost var R := ReliefOf(Model());
      victims := [];
      ReliefStarts(Model());
      var more := true;
      while more
        invariant Valid() && open == old(open) && infos == old(infos)
        invariant R(Model(), victims, more)
        decreases more, wc.used
      {
        more, victims := RelieveOnce(victims, R);
      }
      ReliefEnds(old(Model()), Model(), victims);
    }

    // ----- requests

    method FinalizeFile(key: FileKey)
      requires Valid() && key in open
      modifies this
      ensures Valid() && open == old(open) && infos == old(infos)
      ensures Model() == Assembly.FinalizeFile(old(Model()), key)
    {
      calls := calls + [FileComplete(key, infos[key], FileOf(Model(), key))];
      completed := completed + {key};
      FilesUntouched();
    }

    /** Hand back whatever was taken back, then look whether the file is done. */
    method Settle(key: FileKey, admitted: bool)
      requires Valid() && key in open
      modifies this, open[key]
      ensures Valid() && open == old(open) && infos == old(infos)
      ensures Model() == Assembly.Settle(old(Model()), key, admitted)
    {
      ReleaseFaulted(key);
      if !admitted {
        return;
      }
      if 0 < infos[key].totalParts <= open[key].partsWritten {
        FinalizeFile(key);
      }
    }

    method AtOpenFile(key: FileKey, a: BufferedArticle, fatal: bool) returns (ghost victims: seq<FileKey>)
      requires Valid() && key in open
      modifies this, wc, wc.pool, open.Values
      ensures Valid() && open == old(open) && infos == old(infos)
      ensures Model() == Assembly.AtOpenFile(old(Model()), key, a, fatal, victims)
    {
      victims := [];
      var admitted := TakeOn(key, a, fatal);
      if admitted {
        victims := RelievePressure();
      }
      Settle(key, admitted);
    }

    method LateDuplicate(key: FileKey, a: BufferedArticle)
      requires Valid()
      modifies this`calls, wc.pool
      ensures Valid() && open == old(open) && infos == old(infos)
      ensures Model() == Assembly.LateDuplicate(old(Model()), key, a)
    {
      FreeBuffer(a.data);
      if key in open && a.id !in open[key].seenDone && a.id !in open[key].seenFailed {
        Tell([ArticleRejected(key, a.id, Writing.AfterCompletion)]);
      }
    }

    method FreeBuffer(d: Data)
      requires Valid()
      modifies wc.pool
      ensures Valid() && Model() == old(Model()).(freed := old(wc.pool.freed) + d.Loan())
    {
      wc.pool.PutBuffer(d);
      FilesUntouched();
    }

    /** Nothing could be opened: the article goes back, and its buffer with it, twice over. */
    method OpenFailure(key: FileKey, a: BufferedArticle)
      requires Valid()
      modifies this, wc.pool
      ensures Valid() && open == old(open) && infos == old(infos)
      ensures Model() == Assembly.OpenFailure(old(Model()), key, a)
    {
      FreeBuffer(a.data);
      calls := calls + [ArticlesUnwritten(key, [a.id]), WriteFaulted(key)];
      past := past + [NeverOpened(key, a.id)];
      wc.pool.PutBuffer(a.data);
      FilesUntouched();
    }

    /** A writer nobody has yet joins the open files. */
    method Track(key: FileKey, w: FileWriter, info: Writing.FileInfo)
      requires Valid() && key !in open && w !in open.Values && w.key == key && w.wc == wc
      modifies this
      ensures Valid() && open == old(open)[key := w]
      ensures Model() == old(Model()).(open := old(Files())[key := OpenFile(w.Record(), info)])
    {
      open := open[key := w];
      infos := infos[key := info];
      assert Files() == old(Files())[key := OpenFile(w.Record(), info)];
    }

    method OpenTarget(key: FileKey, info: Writing.FileInfo, handle: Disk)
      requires Valid() && key !in open
      modifies this
      ensures Valid() && key in open && fresh(open.Values - old(open.Values))
      ensures Model() == Assembly.OpenTarget(old(Model()), key, info, handle)
    {
      var w := new FileWriter(handle, key, wc);
      FilesUntouched();
      Track(key, w, info);
    }

    /** An article whose file is not open: open it, or give the article back. */
    method Open(key: FileKey, a: BufferedArticle, opening: Opening) returns (ready: bool)
      requires Valid() && key !in open
      modifies this, wc.pool
      ensures Valid() && fresh(open.Values - old(open.Values)) && (ready <==> opening.OpenedAs?)
      ensures ready ==> key in open && Model() == Assembly.OpenTarget(old(Model()), key, opening.info, opening.handle)
      ensures !ready ==> Model() == Assembly.OpenFailure(old(Model()), key, a)
    {
      ready := opening.OpenedAs?;
      if ready {
        OpenTarget(key, opening.info, opening.handle);
      } else {
        OpenFailure(key, a);
      }
    }

    method ProcessRequest(key: FileKey, a: BufferedArticle, fatal: bool, opening: Opening) returns (ghost victims: seq<FileKey>)
      requires Valid()
      modifies this, wc, wc.pool, open.Values
      ensures Valid() && fresh(open.Values - old(open.Values))
      ensures Model() == Assembly.ProcessRequest(old(Model()), key, a, fatal, Fate(opening, victims, []))
    {
      victims := [];
      if key in completed {
        LateDuplicate(key, a);
        return;
      }
      var ready := key in open;
      if !ready {
        ready := Open(key, a, opening);
      }
      if ready {
        victims := AtOpenFile(key, a, fatal);
      }
    }

    // ----- files leaving the open set

    method DrainOf(key: FileKey) returns (report: seq<WrittenArticle>, ok: bool)
      requires Valid() && key in open
      modifies open[key], wc, wc.pool
      ensures Valid() && open == old(open) && infos == old(infos)
      ensures var (f, drained) := Writing.Drain(FileOf(old(Model()), key));
              ok == drained && report == f.w.reported && Model() == PutFile(old(Model()), key, f)
    {
      report, ok := open[key].Drain();
      OthersStayAccounted(key);
      OneFileChanged(key);
    }

    method Detach(key: FileKey, ghost ending: Ending) returns (w: FileWriter)
      requires Valid() && key in open
      modifies this
      ensures Valid() && open == old(open) - {key} && w == old(open)[key] && forall k | k in open :: open[k] != w
      ensures Model() == old(Model()).(open := old(Files()) - {key},
                                       past := old(past) + [Closed(key, old(Files())[key].w, old(Files())[key].info, ending)])
    {
      w := open[key];
      past := past + [Closed(key, w.Record(), infos[key], ending)];
      open := open - {key};
      infos := infos - {key};
      assert Files() == old(Files()) - {key};
    }

    /** Give up the handle. What the writer took back and nobody has routed comes out with it. */
    method CloseHandle(key: FileKey, ghost ending: Ending) returns (leaked: seq<Writing.Faulted>)
      requires Valid() && key in open
      modifies this, open[key]
      ensures Valid() && open == old(open) - {key} && leaked == old(open[key].faulted)
      ensures Model() == old(Model()).(open := old(Files()) - {key},
                                       past := old(past) + [Closed(key, old(Files())[key].w, old(Files())[key].info, ending)])
    {
      var w := Detach(key, ending);
      ghost var s := Model();
      leaked := w.TakeFaulted();
      assert Model() == s;
    }

    method ForgetBuffer(key: FileKey)
      requires Valid()
      modifies wc, wc.pool
      ensures Valid() && open == old(open) && Model() == Forget(old(Model()), key)
    {
      wc.Forget(key);
      FilesUntouched();
    }

    /** Close the handle and forget the file, along with whatever the cache still holds for it. */
    method Untrack(key: FileKey, ghost ending: Ending) returns (leaked: seq<Writing.Faulted>)
      requires Valid() && key in open
      modifies this, wc, wc.pool, open[key]
      ensures Valid() && open == old(open) - {key} && leaked == old(open[key].faulted)
      ensures Model() == Close(old(Model()), key, ending)
    {
      leaked := CloseHandle(key, ending);
      ForgetBuffer(key);
    }

    method Tombstone(key: FileKey)
      requires Valid()
      modifies this`completed
      ensures Valid() && open == old(open) && Model() == Assembly.Tombstone(old(Model()), key)
    {
      completed := completed + {key};
      FilesUntouched();
    }

    method DrainThenClose(key: FileKey) returns (ok: bool)
      requires Valid() && key in open
      modifies this, wc, wc.pool, open[key]
      ensures Valid() && open == old(open) - {key}
      ensures ok == Writing.Drain(FileOf(old(Model()), key)).1
      ensures Model() == Assembly.DrainAndClose(old(Model()), key)
    {
      var report;
      report, ok := SyncDrainFile(key);
      var leaked := Untrack(key, Handed);
      // The release has emptied the set: nothing is left to route.
      assert leaked == [];
    }

    method DrainAndClose(key: FileKey, st: Storage) returns (err: Option<StorageFault>)
      requires Valid() && key in open
      modifies this, wc, wc.pool, open[key]
      ensures Valid() && open == old(open) - {key}
      ensures Model() == Assembly.DrainAndClose(old(Model()), key) && err == CloseError(old(Model()), key, st)
    {
      var ok := DrainThenClose(key);
      var (first, permanent) := Noted(Noted(Noted((None, None), DrainFault(ok, st)), st.sync), st.close);
      NotedTellsTheWorst(DrainFault(ok, st), st.sync, st.close);
      err := if permanent.Some? then permanent else first;
    }

    method CloseCancelled(key: FileKey, keep: bool)
      requires Valid() && key in open
      modifies this, wc, wc.pool, open[key]
      ensures Valid() && open == old(open) - {key}
      ensures Model() == Assembly.CloseCancelled(old(Model()), key, keep)
    {
      if keep {
        var report, ok := DrainOf(key);
        var dropped := Untrack(key, Kept(ok));
      } else {
        var dropped := Untrack(key, Deleted);
      }
    }

    method CloseOne(key: FileKey, cancel: bool, keep: bool, st: Storage) returns (err: Option<StorageFault>)
      requires Valid() && key in open
      modifies this, wc, wc.pool, open[key]
      ensures Valid() && open == old(open) - {key}
      ensures Model() == ClosedOne(old(Model()), key, cancel, keep)
      ensures err == if cancel then None else CloseError(old(Model()), key, st)
    {
      err := None;
      if cancel {
        CloseCancelled(key, keep);
      } else {
        err := DrainAndClose(key, st);
      }
      Tombstone(key);
    }

    /** One more file of a range under way is closed. */
    method CloseNext(key: FileKey, cancel: bool, keep: bool, storage: FileKey -> Storage, ghost s: Worker,
                     ghost order: seq<FileKey>, errs: seq<StorageFault>)
      returns (all: seq<StorageFault>)
      requires Valid() && key in open && ClosedSoFar(s, order, cancel, keep, storage, Model(), errs)
      modifies this, wc, wc.pool, open[key]
      ensures Valid() && open == old(open) - {key}
      ensures ClosedSoFar(s, order + [key], cancel, keep, storage, Model(), all)
    {
      ClosesOneMore(s, order, key, cancel, keep, storage, Model(), errs);
      var err := CloseOne(key, cancel, keep, storage(key));
      all := errs + ListOf(err);
    }

    /** Close every open file of a job, in whatever order the range delivers them, and collect what failed. */
    method CloseAll(job: JobId, cancel: bool, keep: bool, storage: FileKey -> Storage)
      returns (errs: seq<StorageFault>, ghost order: seq<FileKey>)
      requires Valid()
      modifies this, wc, wc.pool, open.Values
      ensures open.Keys <= old(open.Keys) && (forall k | k in open :: open[k] == old(open)[k])
      ensures Valid() && Enumerates(old(Model()), job, order)
      ensures ClosedSoFar(old(Model()), order, cancel, keep, storage, Model(), errs)
    {
      errs, order := [], [];
      var left := open.Keys;
      ghost var s := Model();
      while left != {}
        invariant Valid() && left <= open.Keys && open.Keys <= old(open).Keys
        invariant forall k | k in open :: open[k] == old(open)[k]
        invariant Visited(old(open).Keys, open.Keys, job, left, order)
        invariant ClosedSoFar(s, order, cancel, keep, storage, Model(), errs)
        decreases |left|
      {
        var key :| key in left;
        VisitOne(old(open).Keys, open.Keys, job, left, order, key);
        left := left - {key};
        if key.jobID == job {
          errs := CloseNext(key, cancel, keep, storage, s, order, errs);
          order := order + [key];
        }
      }
      VisitedAll(s, open.Keys, job, order);
    }

    method MarkCancelled(job: JobId)
      requires Valid()
      modifies this`cancelledJobs
      ensures Valid() && open == old(open)
      ensures Model() == old(Model()).(cancelled := old(cancelledJobs) + {job})
    {
      cancelledJobs := cancelledJobs + {job};
      FilesUntouched();
    }

    method Cancel(job: JobId, keep: bool, storage: FileKey -> Storage) returns (ghost order: seq<FileKey>)
      requires Valid()
      modifies this, wc, wc.pool, open.Values
      ensures open.Keys <= old(open.Keys) && (forall k | k in open :: open[k] == old(open)[k])
      ensures Valid() && Enumerates(old(Model()), job, order)
      ensures Model() == CancelFiles(old(Model()).(cancelled := old(cancelledJobs) + {job}), order, keep)
    {
      MarkCancelled(job);
      ghost var s := Model();
      var errs;
      errs, order := CloseAll(job, true, keep, storage);
      CancelFilesIsClosedAll(s, [], order, keep);
      assert [] + order == order;
    }

    /** Close a job's files. The errors are those of the files whose drain, sync or close failed, joined. */
    method CloseHandles(job: JobId, storage: FileKey -> Storage) returns (errs: seq<StorageFault>, ghost order: seq<FileKey>)
      requires Valid()
      modifies this, wc, wc.pool, open.Values
      ensures open.Keys <= old(open.Keys) && (forall k | k in open :: open[k] == old(open)[k])
      ensures Valid() && Enumerates(old(Model()), job, order)
      ensures Model() == CloseFiles(old(Model()), order)
      ensures errs == CloseErrors(old(Model()), order, false, true, storage)
    {
      ghost var s := Model();
      errs, order := CloseAll(job, false, true, storage);
      CloseFilesIsClosedAll(s, [], order);
      assert [] + order == order;
    }

    method ForgetTombstones(job: JobId)
      requires Valid()
      modifies this
      ensures Valid() && open == old(open) && Model() == Unbury(old(Model()), job)
    {
      var left := completed;
      while left != {}
        invariant left <= old(completed)
        invariant completed == set k | k in old(completed) && (k in left || k.jobID != job)
        invariant open == old(open) && infos == old(infos) && cancelledJobs == old(cancelledJobs)
        invariant calls == old(calls) && past == old(past) && revived == old(revived)
        decreases |left|
      {
        var k :| k in left;
        left := left - {k};
        if k.jobID == job {
          completed := completed - {k};
        }
      }
      cancelledJobs := cancelledJobs - {job};
      revived := revived + [job];
      FilesUntouched();
    }

    method SyncDrainFile(key: FileKey) returns (report: seq<WrittenArticle>, ok: bool)
      requires Valid() && key in open
      modifies this`calls, wc, wc.pool, open[key]
      ensures Valid() && open == old(open)
      ensures var (f, drained) := Writing.Drain(FileOf(old(Model()), key));
              && ok == drained && report == f.w.reported
              && Model() == Assembly.ReleaseFaulted(PutFile(old(Model()), key, f), key)
      ensures open[key].faulted == []
    {
      report, ok := DrainOf(key);
      ReleaseFaulted(key);
      assert Model().open[key].w.faulted == [];
    }

    method SyncConfirmFile(key: FileKey)
      requires Valid() && key in open
      modifies open[key]
      ensures Valid() && open == old(open)
      ensures Model() == PutFile(old(Model()), key, Writing.Confirm(FileOf(old(Model()), key)))
    {
      open[key].Confirm();
      OneFileChanged(key);
    }

    method SyncTruncateFile(key: FileKey, bound: int)
      requires Valid() && key in open
      modifies open[key]
      ensures Valid() && open == old(open)
      ensures Model() == PutFile(old(Model()), key, Writing.Truncate(FileOf(old(Model()), key), bound))
    {
      open[key].Truncate(bound);
      OneFileChanged(key);
    }

    /** The open files of a job, in whatever order the range delivers them. */
    method OpenFiles(job: JobId) returns (files: seq<int>)
      requires Valid()
      ensures Lists(files, set k | k in open && k.jobID == job :: k.fileIdx)
    {
      files := [];
      var left := open.Keys;
      while left != {}
        invariant left <= open.Keys
        invariant Lists(files, set k | k in open.Keys - left && k.jobID == job :: k.fileIdx)
        decreases |left|
      {
        var k :| k in left;
        left := left - {k};
        if k.jobID == job {
          ListsOneMore(files, set l | l in open.Keys - left - {k} && l.jobID == job :: l.fileIdx, k.fileIdx);
          files := files + [k.fileIdx];
        }
      }
    }

    /** The jobs with an open file, each once. */
    method OpenJobs() returns (jobs: seq<JobId>)
      requires Valid()
      ensures Lists(jobs, set k | k in open :: k.jobID)
    {
      jobs := [];
      var left := open.Keys;
      while left != {}
        invariant left <= open.Keys
        invariant Lists(jobs, set k | k in open.Keys - left :: k.jobID)
        decreases |left|
      {
        var k :| k in left;
        left := left - {k};
        if k.jobID !in jobs {
          ListsOneMore(jobs, set l | l in open.Keys - left - {k} :: l.jobID, k.jobID);
          jobs := jobs + [k.jobID];
        }
      }
    }

    // ----- one request from the channel, to its end

    method ServeArticle(req: Request, opening: Opening) returns (ghost fate: Fate)
      requires Valid() && req.Article?
      modifies this, wc, wc.pool, open.Values
      ensures Valid() && fresh(open.Values - old(open.Values))
      ensures Possible(old(Model()), req, fate) && fate.opening == opening
      ensures Model() == Dispatch(old(Model()), req, fate)
    {
      fate := Fate(opening, [], []);
      if req.key.jobID in cancelledJobs {
        FreeBuffer(req.a.data);
      } else {
        ghost var victims := ProcessRequest(req.key, req.a, req.fatal, opening);
        fate := Fate(opening, victims, []);
      }
    }

    /** A request of the job's own life: cancelled, closed or forgotten. */
    method ServeJob(req: Request, ghost opening: Opening, storage: FileKey -> Storage)
      returns (errs: seq<StorageFault>, ghost fate: Fate)
      requires Valid() && (req.CancelJob? || req.CloseHandles? || req.ForgetJob?)
      modifies this, wc, wc.pool, open.Values
      ensures Valid() && open.Keys <= old(open.Keys) && (forall k | k in open :: open[k] == old(open)[k])
      ensures Possible(old(Model()), req, fate) && fate.opening == opening
      ensures Model() == Dispatch(old(Model()), req, fate)
      ensures Answered(old(Model()), req, fate, storage, SILENCE, errs)
    {
      ghost var order := [];
      errs := [];
      match req {
        case CancelJob(job, keep) => order := Cancel(job, keep, storage);
        case CloseHandles(job) => errs, order := CloseHandles(job, storage);
        case ForgetJob(job) => ForgetTombstones(job);
      }
      fate := Fate(opening, [], order);
      JobIsAnswered(old(Model()), req, fate, storage, errs);
    }

    method ServeDrain(key: FileKey, ghost fate: Fate, st: Storage) returns (reply: SyncReply)
      requires Valid() && key in open
      modifies this, wc, wc.pool, open[key]
      ensures Valid() && open == old(open)
      ensures Model() == Dispatch(old(Model()), SyncDrain(key), fate) && reply == Answer(old(Model()), SyncDrain(key), st)
    {
      DrainIsAnswered(Model(), key, fate, st);
      var report, ok := SyncDrainFile(key);
      reply := SILENCE.(written := report, err := if ok then None else Some(OfStorage(st.write)));
    }

    method ServeTruncate(key: FileKey, bound: int, ghost fate: Fate, st: Storage) returns (reply: SyncReply)
      requires Valid() && key in open && fate.storage == st
      modifies open[key]
      ensures Valid() && open == old(open)
      ensures Model() == Dispatch(old(Model()), SyncTruncate(key, bound), fate)
      ensures reply == Answer(old(Model()), SyncTruncate(key, bound), st)
    {
      if st.truncate.None? {
        SyncTruncateFile(key, bound);
      }
      reply := SILENCE.(err := if bound < 0 then None else Refused(st.truncate));
    }

    method ServeConfirm(key: FileKey, ghost fate: Fate)
      requires Valid() && key in open
      modifies open[key]
      ensures Valid() && open == old(open)
      ensures Model() == Dispatch(old(Model()), SyncConfirm(key), fate)
    {
      SyncConfirmFile(key);
    }

    method ServeClose(key: FileKey, ghost fate: Fate, st: Storage) returns (reply: SyncReply)
      requires Valid() && key in open
      modifies this, wc, wc.pool, open[key]
      ensures Valid() && open == old(open) - {key}
      ensures Model() == Dispatch(old(Model()), SyncClose(key), fate) && reply == Answer(old(Model()), SyncClose(key), st)
    {
      CloseIsAnswered(Model(), key, fate, st);
      var err := DrainAndClose(key, st);
      reply := SILENCE.(err := Refused(err));
    }

    /** A request of the barrier's about one open file. */
    method ServeFile(req: Request, ghost fate: Fate, st: Storage) returns (reply: SyncReply)
      requires Valid() && IsOfFile(req) && req.key in open && fate.storage == st
      modifies this, wc, wc.pool, open.Values
      ensures Valid() && open.Keys <= old(open.Keys) && (forall k | k in open :: open[k] == old(open)[k])
      ensures Model() == Dispatch(old(Model()), req, fate) && reply == Answer(old(Model()), req, st)
    {
      reply := SILENCE;
      match req {
        case SyncDrain(key) => reply := ServeDrain(key, fate, st);
        case SyncFsync(key) => reply := reply.(err := Refused(st.sync));
        case SyncConfirm(key) => ServeConfirm(key, fate);
        case SyncStat(key) => reply := reply.(size := if st.stat.None? then st.size else 0, err := Refused(st.stat));
        case SyncTruncate(key, bound) => reply := ServeTruncate(key, bound, fate, st);
        case SyncClose(key) => reply := ServeClose(key, fate, st);
      }
    }

    /** A request of the barrier's. One about a file that is not open changes nothing. */
    method ServeBarrier(req: Request, ghost fate: Fate, st: Storage) returns (reply: SyncReply)
      requires Valid() && IsOfBarrier(req) && fate.storage == st
      modifies this, wc, wc.pool, open.Values
      ensures Valid() && open.Keys <= old(open.Keys) && (forall k | k in open :: open[k] == old(open)[k])
      ensures Model() == Dispatch(old(Model()), req, fate) && Answers(old(Model()), req, st, reply)
    {
      reply := SILENCE;
      if req.SyncFiles? {
        var files := OpenFiles(req.job);
        reply := reply.(files := files);
      } else if req.SyncJobs? {
        var jobs := OpenJobs();
        reply := reply.(jobs := jobs);
      } else if req.key in open {
        reply := ServeFile(req, fate, st);
      } else {
        reply := reply.(err := if req.SyncClose? then None else Some(NotOpen));
      }
    }

    /** No writer is open that was not open before. */
    twostate lemma NoneJoined()
      requires open.Keys <= old(open.Keys) && forall k | k in open :: open[k] == old(open)[k]
      ensures open.Values <= old(open.Values)
    {
    }

    method ServeSync(req: Request, ghost opening: Opening, storage: FileKey -> Storage)
      returns (reply: SyncReply, ghost fate: Fate)
      requires Valid() && IsOfBarrier(req)
      modifies this, wc, wc.pool, open.Values
      ensures Valid() && open.Keys <= old(open.Keys) && (forall k | k in open :: open[k] == old(open)[k])
      ensures Possible(old(Model()), req, fate) && fate.opening == opening
      ensures Model() == Dispatch(old(Model()), req, fate)
      ensures Answered(old(Model()), req, fate, storage, reply, [])
    {
      var st := if IsOfFile(req) then storage(req.key) else HEALTHY;
      fate := Fate(opening, [], [], st);
      reply := ServeBarrier(req, fate, st);
    }

    method Serve(req: Request, opening: Opening, storage: FileKey -> Storage)
      returns (reply: SyncReply, errs: seq<StorageFault>, ghost fate: Fate)
      requires Valid()
      modifies this, wc, wc.pool, open.Values
      ensures Valid() && fresh(open.Values - old(open.Values))
      ensures Possible(old(Model()), req, fate) && Model() == Dispatch(old(Model()), req, fate)
      ensures fate.opening == opening && Answered(old(Model()), req, fate, storage, reply, errs)
    {
      reply, errs := SILENCE, [];
      if req.Article? {
        fate := ServeArticle(req, opening);
        ArticleIsAnswered(old(Model()), req, fate, storage);
      } else if req.CancelJob? || req.CloseHandles? || req.ForgetJob? {
        errs, fate := ServeJob(req, opening, storage);
        NoneJoined();
      } else {
        reply, fate := ServeSync(req, opening, storage);
        NoneJoined();
      }
    }
  }

  lemma ListsOneMore<T(!new)>(list: seq<T>, all: set<T>, x: T)
    requires Lists(list, all) && x !in all
    ensures Lists(list + [x], all + {x})
  {
  }

  /** A range over the open files under way: those of the job that have been visited, and those still to be. */
  ghost predicate Visited(all: set<FileKey>, open: set<FileKey>, job: JobId, left: set<FileKey>, order: seq<FileKey>) {
    && (forall k | k in order :: k in all && k.jobID == job && k !in open)
    && (forall k | k in all && k.jobID == job :: k in left || k in order)
    && (forall i, j | 0 <= i < j < |order| :: order[i] != order[j])
  }

  lemma VisitOne(all: set<FileKey>, open: set<FileKey>, job: JobId, left: set<FileKey>, order: seq<FileKey>, key: FileKey)
    requires Visited(all, open, job, left, order) && key in left && left <= open && open <= all
    ensures if key.jobID == job then Visited(all, open - {key}, job, left - {key}, order + [key])
            else Visited(all, open, job, left - {key}, order)
  {
  }

  lemma VisitedAll(s: Worker, open: set<FileKey>, job: JobId, order: seq<FileKey>)
    requires Visited(s.open.Keys, open, job, {}, order)
    ensures Enumerates(s, job, order)
  {
  }

  lemma ClosedAllAppend(s: Worker, order: seq<FileKey>, key: FileKey, cancel: bool, keep: bool)
    ensures ClosedAll(s, order + [key], cancel, keep) == ClosedOne(ClosedAll(s, order, cancel, keep), key, cancel, keep)
  {
    assert (order + [key])[..|order|] == order;
  }

  /** Closing from the front is closing from the back. */
  lemma {:induction false} CancelFilesIsClosedAll(s: Worker, keys: seq<FileKey>, more: seq<FileKey>, keep: bool)
    ensures CancelFiles(ClosedAll(s, keys, true, keep), more, keep) == ClosedAll(s, keys + more, true, keep)
    decreases |more|
  {
    if more == [] {
      assert keys + more == keys;
    } else {
      ClosedAllAppend(s, keys, more[0], true, keep);
      CancelFilesIsClosedAll(s, keys + [more[0]], more[1..], keep);
      assert keys + [more[0]] + more[1..] == keys + more;
    }
  }

  lemma {:induction false} CloseFilesIsClosedAll(s: Worker, keys: seq<FileKey>, more: seq<FileKey>)
    ensures CloseFiles(ClosedAll(s, keys, false, true), more) == ClosedAll(s, keys + more, false, true)
    decreases |more|
  {
    if more == [] {
      assert keys + more == keys;
    } else {
      ClosedAllAppend(s, keys, more[0], false, true);
      CloseFilesIsClosedAll(s, keys + [more[0]], more[1..]);
      assert keys + [more[0]] + more[1..] == keys + more;
    }
  }

  /** One file closed and its key buried. */
  ghost function ClosedOne(s: Worker, key: FileKey, cancel: bool, keep: bool): Worker {
    if key !in s.open then s
    else Assembly.Tombstone(if cancel then Assembly.CloseCancelled(s, key, keep) else Assembly.DrainAndClose(s, key), key)
  }

  ghost function ClosedAll(s: Worker, keys: seq<FileKey>, cancel: bool, keep: bool): Worker
    decreases |keys|
  {
    if keys == [] then s
    else ClosedOne(ClosedAll(s, keys[..|keys| - 1], cancel, keep), keys[|keys| - 1], cancel, keep)
  }

  /** What serving a request answers: the barrier by its reply, the closing of handles by the errors joined. */
  ghost predicate Answered(s: Worker, req: Request, fate: Fate, storage: FileKey -> Storage, reply: SyncReply,
                           errs: seq<StorageFault>) {
    && (IsOfBarrier(req) ==> Answers(s, req, fate.storage, reply))
    && (IsOfFile(req) ==> fate.storage == storage(req.key))
    && (req.CloseHandles? ==> errs == CloseErrors(s, fate.order, false, true, storage))
  }

  lemma DrainIsAnswered(s: Worker, key: FileKey, fate: Fate, st: Storage)
    requires key in s.open
    ensures var (f, ok) := Writing.Drain(FileOf(s, key));
            && Dispatch(s, SyncDrain(key), fate) == Assembly.ReleaseFaulted(PutFile(s, key, f), key)
            && Answer(s, SyncDrain(key), st)
            == SILENCE.(written := f.w.reported, err := if ok then None else Some(OfStorage(st.write)))
  {
  }

  lemma CloseIsAnswered(s: Worker, key: FileKey, fate: Fate, st: Storage)
    requires key in s.open
    ensures Dispatch(s, SyncClose(key), fate) == Assembly.DrainAndClose(s, key)
    ensures Answer(s, SyncClose(key), st) == SILENCE.(err := Refused(CloseError(s, key, st)))
  {
  }

  lemma ArticleIsAnswered(s: Worker, req: Request, fate: Fate, storage: FileKey -> Storage)
    requires req.Article?
    ensures Answered(s, req, fate, storage, SILENCE, [])
  {
  }

  lemma JobIsAnswered(s: Worker, req: Request, fate: Fate, storage: FileKey -> Storage, errs: seq<StorageFault>)
    requires req.CancelJob? || req.CloseHandles? || req.ForgetJob?
    requires errs == if req.CloseHandles? then CloseErrors(s, fate.order, false, true, storage) else []
    ensures Answered(s, req, fate, storage, SILENCE, errs)
  {
  }

  function ListOf(err: Option<StorageFault>): seq<StorageFault> {
    if err.Some? then [err.value] else []
  }

  /** What closing these files reports, each error in the order of the closing. */
  ghost function CloseErrors(s: Worker, keys: seq<FileKey>, cancel: bool, keep: bool, storage: FileKey -> Storage): seq<StorageFault>
    decreases |keys|
  {
    if keys == [] then []
    else
      var most, key := keys[..|keys| - 1], keys[|keys| - 1];
      var t := ClosedAll(s, most, cancel, keep);
      CloseErrors(s, most, cancel, keep, storage)
      + if cancel || key !in t.open then [] else ListOf(CloseError(t, key, storage(key)))
  }

  function Joined(errs: seq<Option<StorageFault>>): seq<StorageFault>
    decreases |errs|
  {
    if errs == [] then [] else Joined(errs[..|errs| - 1]) + ListOf(errs[|errs| - 1])
  }

  /** Each of these files has ended, and its part of what is said tells of its own drain, sync and close. */
  ghost predicate EachTold(s: Worker, t: Worker, keys: seq<FileKey>, storage: FileKey -> Storage, errs: seq<Option<StorageFault>>) {
    && |errs| == |keys| && |t.past| >= |s.past| + |keys|
    && forall n | 0 <= n < |keys| ::
         var e := t.past[|s.past| + n];
         && keys[n] in s.open && e.Closed? && e.key == keys[n]
         && TellsOfClose(errs[n], s.open[keys[n]].w.handle, e.w.handle, storage(keys[n]))
  }

  lemma ClosingsLeave(s: Worker, keys: seq<FileKey>)
    requires EachOnce(keys, s.open.Keys) && CacheIsAccounted(s)
    ensures var t := ClosedAll(s, keys, false, true);
            |t.past| == |s.past| + |keys| && t.open == s.open - Elems(keys)
  {
    CloseFilesIsClosedAll(s, [], keys);
    assert [] + keys == keys;
    HandedFilesLeave(s, keys);
  }

  /** When all these files but the last have been closed, the last is open as it was. */
  lemma ClosesLast(s: Worker, keys: seq<FileKey>)
    requires keys != [] && EachOnce(keys, s.open.Keys) && CacheIsAccounted(s)
    ensures var n := |keys| - 1;
            var t := ClosedAll(s, keys[..n], false, true);
            && EachOnce(keys[..n], s.open.Keys) && |t.past| == |s.past| + n
            && keys[n] in t.open && t.open[keys[n]] == s.open[keys[n]]
  {
    var n := |keys| - 1;
    ClosingsLeave(s, keys[..n]);
    assert keys[n] !in Elems(keys[..n]);
  }

  /**
   * The errors joined when a job's handles are closed are those of the single files, in their order: each file's
   * tells whether its drain, its sync or its close failed.
   */
  lemma JoinedErrorsTell(s: Worker, keys: seq<FileKey>, storage: FileKey -> Storage)
    returns (errs: seq<Option<StorageFault>>)
    requires EachOnce(keys, s.open.Keys) && CacheIsAccounted(s)
    ensures CloseErrors(s, keys, false, true, storage) == Joined(errs)
    ensures EachTold(s, CloseFiles(s, keys), keys, storage, errs)
  {
    errs := ErrorsTold(s, keys, storage);
    CloseFilesIsClosedAll(s, [], keys);
    assert [] + keys == keys;
  }

  lemma {:induction false} ErrorsTold(s: Worker, keys: seq<FileKey>, storage: FileKey -> Storage)
    returns (errs: seq<Option<StorageFault>>)
    requires EachOnce(keys, s.open.Keys) && CacheIsAccounted(s)
    ensures CloseErrors(s, keys, false, true, storage) == Joined(errs)
    ensures EachTold(s, ClosedAll(s, keys, false, true), keys, storage, errs)
    decreases |keys|
  {
    errs := [];
    if keys != [] {
      var n := |keys| - 1;
      var t := ClosedAll(s, keys[..n], false, true);
      ClosesLast(s, keys);
      var most := ErrorsTold(s, keys[..n], storage);
      errs := most + [CloseError(t, keys[n], storage(keys[n]))];
      assert errs[..n] == most;
      assert keys[..n] + [keys[n]] == keys;
      ClosesOneMore(s, keys[..n], keys[n], false, true, storage, t, Joined(most));
      LastIsTold(t, keys[n], storage(keys[n]));
      ToldOneMore(s, t, ClosedOne(t, keys[n], false, true), keys, storage, errs);
    }
  }

  /** The file's last record, as its closing left it. */
  lemma LastIsTold(t: Worker, key: FileKey, st: Storage)
    requires key in t.open
    ensures var u := ClosedOne(t, key, false, true);
            && |u.past| == |t.past| + 1 && u.past[..|t.past|] == t.past
            && u.past[|t.past|].Closed? && u.past[|t.past|].key == key
            && TellsOfClose(CloseError(t, key, st), t.open[key].w.handle, u.past[|t.past|].w.handle, st)
  {
    CloseErrorTells(t, key, st);
  }

  lemma ToldOneMore(s: Worker, t: Worker, u: Worker, keys: seq<FileKey>, storage: FileKey -> Storage, errs: seq<Option<StorageFault>>)
    requires keys != [] && |errs| == |keys| && |t.past| == |s.past| + |keys| - 1
    requires |u.past| == |t.past| + 1 && u.past[..|t.past|] == t.past
    requires var n := |keys| - 1;
             && EachTold(s, t, keys[..n], storage, errs[..n])
             && keys[n] in s.open && u.past[|t.past|].Closed? && u.past[|t.past|].key == keys[n]
             && TellsOfClose(errs[n], s.open[keys[n]].w.handle, u.past[|t.past|].w.handle, storage(keys[n]))
    ensures EachTold(s, u, keys, storage, errs)
  {
    var n := |keys| - 1;
    forall i | 0 <= i < n
      ensures keys[i] in s.open && u.past[|s.past| + i].Closed? && u.past[|s.past| + i].key == keys[i]
      ensures TellsOfClose(errs[i], s.open[keys[i]].w.handle, u.past[|s.past| + i].w.handle, storage(keys[i]))
    {
      assert keys[..n][i] == keys[i] && errs[..n][i] == errs[i];
      assert u.past[..|t.past|][|s.past| + i] == t.past[|s.past| + i];
    }
  }

  /** Having closed these files, in this order, from s: the state reached, and the errors so far. */
  ghost predicate ClosedSoFar(s: Worker, order: seq<FileKey>, cancel: bool, keep: bool, storage: FileKey -> Storage,
                              t: Worker, errs: seq<StorageFault>) {
    t == ClosedAll(s, order, cancel, keep) && errs == CloseErrors(s, order, cancel, keep, storage)
  }

  lemma ClosesOneMore(s: Worker, order: seq<FileKey>, key: FileKey, cancel: bool, keep: bool, storage: FileKey -> Storage,
                      t: Worker, errs: seq<StorageFault>)
    requires ClosedSoFar(s, order, cancel, keep, storage, t, errs) && key in t.open
    ensures ClosedSoFar(s, order + [key], cancel, keep, storage, ClosedOne(t, key, cancel, keep),
                        errs + ListOf(if cancel then None else CloseError(t, key, storage(key))))
  {
    assert (order + [key])[..|order|] == order;
  }

  function UnwrittenOne(r: Writing.Faulted): seq<int> {
    if r.RolledBack? then [r.id] else []
  }

  lemma RouteOneMore(key: FileKey, rolled: seq<Writing.Faulted>, told: seq<Call>, arts: seq<int>)
    requires rolled != []
    ensures (told + RejectOne(key, rolled[0])) + RejectCalls(key, rolled[1..]) == told + RejectCalls(key, rolled)
    ensures (arts + UnwrittenOne(rolled[0])) + UnwrittenIds(rolled[1..]) == arts + UnwrittenIds(rolled)
  {
    assert UnwrittenIds(rolled) == UnwrittenOne(rolled[0]) + UnwrittenIds(rolled[1..]);
  }

  /** Flushing these victims is a proper relief of the pressure in s, and leaves t. */
  ghost predicate Relieved(s: Worker, victims: seq<FileKey>, t: Worker) {
    Schedule(s, victims) && t == Assembly.RelievePressure(s, victims)
  }

  /** Having flushed these victims, whatever is flushed from here on completes a schedule from the start. */
  ghost predicate Continues(s: Worker, t: Worker, done: seq<FileKey>) {
    forall rest: seq<FileKey> ::
      && (Schedule(t, rest) ==> Schedule(s, done + rest))
      && Assembly.RelievePressure(s, done + rest) == Assembly.RelievePressure(t, rest)
  }

  // Where relieving the pressure of a state has got to: what is left, whom it flushed, whether it goes on.
  type Relief = (Worker, seq<FileKey>, bool) -> bool

  ghost function ReliefOf(s: Worker): Relief {
    (t: Worker, done: seq<FileKey>, more: bool) => if more then Continues(s, t, done) else Relieved(s, done, t)
  }

  /** What a turn of relieving pressure may rely on, without knowing where it began. */
  ghost predicate Guides(R: Relief) {
    && (forall t: Worker, done: seq<FileKey> | R(t, done, true) && NothingToFlush(t) :: R(t, done, false))
    && (forall t: Worker, u: Worker, done: seq<FileKey>, key: FileKey, more: bool {:trigger R(u, done + [key], more), FlushVictim(t, key)}
          | R(t, done, true) && Pressure(t) && IsLargest(t, key) && FlushVictim(t, key) == (u, more) ::
          R(u, done + [key], more))
  }

  ghost predicate NothingToFlush(t: Worker) {
    !Pressure(t) || forall k | k in t.perFile :: t.perFile[k].totalBytes <= 0
  }

  lemma ReliefStarts(s: Worker)
    ensures ReliefOf(s)(s, [], true) && Guides(ReliefOf(s))
  {
    forall rest: seq<FileKey>
      ensures Schedule(s, rest) ==> Schedule(s, [] + rest)
      ensures Assembly.RelievePressure(s, [] + rest) == Assembly.RelievePressure(s, rest)
    {
      assert [] + rest == rest;
    }
    assert Continues(s, s, []);
    var R := ReliefOf(s);
    forall t: Worker, done: seq<FileKey> | R(t, done, true) && NothingToFlush(t) ensures R(t, done, false) {
      StopsHere(s, t, done);
    }
    forall t: Worker, u: Worker, done: seq<FileKey>, key: FileKey, more: bool
      | R(t, done, true) && Pressure(t) && IsLargest(t, key) && FlushVictim(t, key) == (u, more)
      ensures R(u, done + [key], more)
    {
      if more {
        ContinuesOneMore(s, t, u, done, key);
      } else {
        StopsAtFault(s, t, u, done, key);
      }
    }
  }

  lemma ReliefEnds(s: Worker, t: Worker, victims: seq<FileKey>)
    requires ReliefOf(s)(t, victims, false)
    ensures Relieved(s, victims, t)
  {
  }

  lemma ContinuesOneMore(s: Worker, t: Worker, u: Worker, done: seq<FileKey>, key: FileKey)
    requires Continues(s, t, done) && Pressure(t) && IsLargest(t, key) && FlushVictim(t, key) == (u, true)
    ensures Continues(s, u, done + [key])
  {
    forall rest: seq<FileKey>
      ensures Schedule(u, rest) ==> Schedule(s, done + [key] + rest)
      ensures Assembly.RelievePressure(s, done + [key] + rest) == Assembly.RelievePressure(u, rest)
    {
      var longer := [key] + rest;
      assert done + [key] + rest == done + longer;
      assert longer[1..] == rest;
      assert Schedule(u, rest) ==> Schedule(t, longer);
      assert Assembly.RelievePressure(t, longer) == Assembly.RelievePressure(u, rest);
    }
  }

  lemma StopsHere(s: Worker, t: Worker, done: seq<FileKey>)
    requires Continues(s, t, done) && NothingToFlush(t)
    ensures Relieved(s, done, t)
  {
    assert done + [] == done;
    assert Schedule(t, []) && Assembly.RelievePressure(t, []) == t;
  }

  lemma StopsAtFault(s: Worker, t: Worker, u: Worker, done: seq<FileKey>, key: FileKey)
    requires Continues(s, t, done) && Pressure(t) && IsLargest(t, key) && FlushVictim(t, key) == (u, false)
    ensures Relieved(s, done + [key], u)
  {
    assert Schedule(t, [key]) && Assembly.RelievePressure(t, [key]) == u;
  }

  lemma VictimShrinks(t: Worker, key: FileKey)
    requires IsLargest(t, key) && t.perFile[key].articles != map[] && FlushVictim(t, key).1
    ensures FlushVictim(t, key).0.used < t.used
  {
    if key in t.open {
      FlushTakesOut(t, key);
      WriterRuns.WriteInOrderKeepsBuffer(FileOf(TakenOut(t, key), key), Sorted(t.perFile[key].articles));
    }
  }

  /** An open file's articles written, with a fault routed and said. */
  ghost function Rewritten(t: Worker, key: FileKey, arts: seq<BufferedArticle>): (Worker, bool)
    requires key in t.open
  {
    var (f, ok) := Writing.WriteInOrder(FileOf(t, key), arts);
    var u := PutFile(t, key, f);
    if ok then (u, true) else (Say(Assembly.ReleaseFaulted(u, key), [WriteFaulted(key)]), false)
  }

  /** Flushing a file is taking its articles out and writing them in order. */
  lemma FlushTakesOut(s: Worker, key: FileKey)
    requires key in s.perFile && key in s.open && s.perFile[key].articles != map[]
    ensures FlushVictim(s, key) == Rewritten(TakenOut(s, key), key, Sorted(s.perFile[key].articles))
  {
    var (f, ok) := Writing.FlushAll(FileOf(s, key));
    WriterRuns.WriteInOrderKeepsBuffer(FileOf(TakenOut(s, key), key), Sorted(s.perFile[key].articles));
    assert FileOf(TakenOut(s, key), key) == FileOf(s, key).(buf := Some(Drained(s.perFile[key])));
    assert PutFile(s, key, f) == PutFile(TakenOut(s, key), key, f);
  }

  lemma DrainedIsAccounted()
    ensures forall cursor :: Accounted(FileBuf(map[], cursor, 0))
  {
    assert Sizes(map[]) == map[];
  }

  /** A file's cache entry emptied, its articles in the hands of whoever emptied it. */
  ghost function TakenOut(s: Worker, key: FileKey): Worker
    requires key in s.perFile
  {
    s.(perFile := s.perFile[key := Drained(s.perFile[key])], used := s.used - s.perFile[key].totalBytes)
  }
}
