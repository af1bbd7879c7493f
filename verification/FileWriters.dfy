/** One file's writer in memory, over the shared cache. */
module FileWriters {
  import opened Types
  import opened FileBuffer
  import opened WriteCaches
  import Writing

  /** Everything given up at once is everything given up one by one. */
  lemma {:induction false} AbandonIsFreeThenFail(f: Writing.File, rest: seq<BufferedArticle>)
    ensures Writing.Abandon(f, rest)
         == Writing.File(Writing.FailAll(f.w, PartsOf(rest)), f.buf, f.freed + LoansOf(rest))
    decreases |rest|
  {
    if rest == [] {
    } else {
      var g := f.(w := Writing.Fail(f.w, rest[0].id), freed := f.freed + rest[0].data.Loan());
      PartsTail(rest);
      AbandonIsFreeThenFail(g, rest[1..]);
    }
  }

  lemma PutStaysAccounted(fb: FileBuf, a: BufferedArticle)
    requires Accounted(fb) && a.data.Len() > 0
    ensures Accounted(PutArticle(fb, a))
  {
    PutKeepsAccount(fb, a);
  }

  lemma DropStaysAccounted(fb: FileBuf, off: int)
    requires Accounted(fb)
    ensures Accounted(DropArticle(fb, off))
  {
    DropKeepsAccount(fb, off);
  }

  lemma EmptyIsAccounted()
    ensures Accounted(EMPTY_BUF)
  {
  }

  lemma OthersStay(m: map<FileKey, FileBuf>, key: FileKey, fb: FileBuf)
    ensures m[key := fb] - {key} == m - {key}
  {
  }

  class FileWriter {
    const key: FileKey
    const wc: WriteCache
    // The file behind the handle.
    var file: Disk
    var seenDone: set<int>
    var seenFailed: set<int>
    var acceptedAt: map<int, Writing.OffsetOwner>
    var partsWritten: int
    var postAnomalyReported: bool
    var written: seq<WrittenArticle>
    var reported: seq<WrittenArticle>
    var faulted: seq<Writing.Faulted>
    // Histories.
    ghost var noted: seq<WrittenArticle>
    ghost var rolled: seq<Writing.Faulted>
    ghost var cut: bool

    ghost function Record(): Writing.Writer
      reads this
    {
      Writing.Writer(seenDone, seenFailed, acceptedAt, partsWritten, postAnomalyReported,
                     written, reported, faulted, file, noted, rolled, cut)
    }

    ghost function Model(): Writing.File
      reads this, wc, wc.pool
    {
      Writing.File(Record(), BufAt(wc.perFile, key), wc.pool.freed)
    }

    ghost predicate Valid()
      reads this, wc
    {
      wc.Valid() && (key in wc.perFile ==> Accounted(wc.perFile[key]))
    }

    /** The other files' entries in the cache, and the bytes they hold. */
    ghost function Others(): (map<FileKey, FileBuf>, int)
      reads wc
    {
      (wc.perFile - {key}, wc.used - TotalOf(BufAt(wc.perFile, key)))
    }

    constructor (handle: Disk, key: FileKey, wc: WriteCache)
      ensures Record() == Writing.NewWriter(handle) && this.key == key && this.wc == wc
    {
      this.key := key;
      this.wc := wc;
      file := handle.(log := []);
      seenDone, seenFailed, acceptedAt, partsWritten, postAnomalyReported := {}, {}, map[], 0, false;
      written, reported, faulted := [], [], [];
      noted, rolled, cut := [], [], false;
    }

    // ----- transitions

    method NoteWritten(p: RunPart)
      modifies this
      ensures Record() == Writing.NoteWritten(old(Record()), p)
    {
      if p.offset in acceptedAt && acceptedAt[p.offset].id == p.id {
        acceptedAt := acceptedAt[p.offset := acceptedAt[p.offset].(written := true)];
      }
      var rec := WrittenArticle(p.id, p.offset, p.length, p.crc32);
      written := written + [rec];
      noted := noted + [rec];
    }

    method RollbackPart(id: int)
      modifies this
      ensures Record() == Writing.RollbackPart(old(Record()), id)
    {
      var wasDone := id in seenDone;
      var wasFailed := id in seenFailed;
      seenDone := seenDone - {id};
      if wasDone && !wasFailed && partsWritten > 0 {
        partsWritten := partsWritten - 1;
      }
    }

    method Fail(id: int)
      modifies this
      ensures Record() == Writing.Fail(old(Record()), id)
    {
      RollbackPart(id);
      faulted := faulted + [Writing.RolledBack(id)];
      rolled := rolled + [Writing.RolledBack(id)];
    }

    method NotePostAnomaly() returns (first: bool)
      modifies this
      ensures first == !old(postAnomalyReported) && Record() == old(Record()).(postAnomalyReported := true)
    {
      if postAnomalyReported {
        return false;
      }
      postAnomalyReported := true;
      first := true;
    }

    method AdmitAccepted(id: int)
      modifies this
      ensures Record() == Writing.AdmitAccepted(old(Record()), id)
    {
      seenDone := seenDone + {id};
      partsWritten := partsWritten + 1;
    }

    method AdmitRetryOfFailed(id: int)
      modifies this
      ensures Record() == Writing.AdmitRetryOfFailed(old(Record()), id)
    {
      seenDone := seenDone + {id};
    }

    method AdmitPermanentFailure(id: int) returns (admitted: bool)
      modifies this
      ensures (Record(), admitted) == Writing.AdmitPermanentFailure(old(Record()), id)
    {
      if id in seenFailed {
        assert seenFailed + {id} == seenFailed;
        return false;
      }
      var alreadyCounted := id in seenDone;
      seenFailed := seenFailed + {id};
      if alreadyCounted {
        return false;
      }
      partsWritten := partsWritten + 1;
      admitted := true;
    }

    method FailPermanent(id: int)
      modifies this
      ensures Record() == Writing.FailPermanent(old(Record()), id)
    {
      seenDone := seenDone - {id};
      seenFailed := seenFailed + {id};
    }

    method FailDisplaced(id: int, off: int, displacer: int)
      modifies this
      ensures Record() == Writing.FailDisplaced(old(Record()), id, off, displacer)
    {
      var admitted := AdmitPermanentFailure(id);
      var first := NotePostAnomaly();
      faulted := faulted + [Writing.Displaced(id, off, displacer, first)];
      rolled := rolled + [Writing.Displaced(id, off, displacer, first)];
    }

    method OffsetSettledBy(off: int, arriving: int) returns (settled: bool)
      ensures settled == Writing.OffsetSettledBy(Record(), off, arriving)
    {
      settled := off in acceptedAt && acceptedAt[off].id != arriving && acceptedAt[off].written;
    }

    method TakeFaulted() returns (out: seq<Writing.Faulted>)
      modifies this
      ensures out == old(faulted) && Model() == Writing.TakeFaulted(old(Model()))
    {
      out := faulted;
      faulted := [];
    }

    // ----- writes

    method WriteAt(p: seq<byte>, off: int) returns (ok: bool)
      modifies this`file
      ensures (file, ok) == Types.WriteAt(old(file), p, off)
    {
      file, ok := Types.WriteAt(file, p, off).0, Types.WriteAt(file, p, off).1;
    }

    method WriteOne(a: BufferedArticle) returns (ok: bool)
      modifies this, wc.pool
      ensures (Model(), ok) == Writing.WriteOne(old(Model()), a)
    {
      ok := WriteAt(a.data.Bytes(), a.offset);
      if a.data.Buf? {
        wc.pool.PutBuffer(a.data);
      }
      assert wc.pool.freed == old(wc.pool.freed) + a.data.Loan();
      if !ok {
        Fail(a.id);
        return;
      }
      NoteWritten(RunPart(a.id, a.offset, a.data.Len(), a.crc32));
    }

    method FlushRun(run: FlushRun) returns (ok: bool)
      modifies this
      ensures (Model(), ok) == Writing.WriteRun(old(Model()), run)
    {
      ok := WriteAt(run.data, run.offset);
      ghost var w := Record();
      if !ok {
        for i := 0 to |run.parts|
          invariant Writing.FailAll(Record(), run.parts[i..]) == Writing.FailAll(w, run.parts)
        {
          Fail(run.parts[i].id);
        }
        return;
      }
      for i := 0 to |run.parts|
        invariant Writing.NoteAll(Record(), run.parts[i..]) == Writing.NoteAll(w, run.parts)
      {
        NoteWritten(run.parts[i]);
      }
    }

    /** Take the offset for an arriving article, and its unsettled owner's bytes away. */
    method Claim(off: int, id: int)
      requires Valid()
      modifies this, wc, wc.pool
      ensures Valid() && Model() == Writing.Claim(old(Model()), off, id) && Others() == old(Others())
    {
      if off in acceptedAt && acceptedAt[off].id != id {
        if key in wc.perFile {
          DropStaysAccounted(wc.perFile[key], off);
          OthersStay(wc.perFile, key, DropArticle(wc.perFile[key], off));
        }
        FailDisplaced(acceptedAt[off].id, off, id);
        wc.DiscardAt(key, off);
        assert wc.pool.freed == old(wc.pool.freed) + LoanAt(old(Model()).Articles(), off);
      }
      if off !in acceptedAt || acceptedAt[off].id != id {
        acceptedAt := acceptedAt[off := Writing.OffsetOwner(id, false)];
      }
    }

    method FlushContiguous() returns (ok: bool)
      requires Valid()
      modifies this, wc, wc.pool
      ensures Valid() && (Model(), ok) == Writing.FlushContiguous(old(Model())) && Others() == old(Others())
    {
      if key in wc.perFile {
        RunKeepsAccount(wc.perFile[key], CONTIGUOUS_RUN_SIZE);
        OthersStay(wc.perFile, key, BuildRun(wc.perFile[key], CONTIGUOUS_RUN_SIZE).1);
      }
      var run := wc.FlushContiguous(key);
      if run.Some? {
        ok := FlushRun(run.value);
      } else {
        assert wc.pool.freed == old(wc.pool.freed);
        ok := true;
      }
    }

    /** Hand an article to the cache, if the cache will have it. */
    method BufferArticle(a: BufferedArticle) returns (taken: bool)
      requires Valid()
      modifies wc, wc.pool
      ensures Valid() && Others() == old(Others()) && (taken <==> wc.limit > 0 && a.data.Len() > 0)
      ensures var g := old(Model());
              Model() == if taken then g.(buf := Some(PutArticle(g.Buffer(), a)),
                                          freed := g.freed + LoanAt(g.Articles(), a.offset))
                         else g
    {
      ghost var g := Model();
      if a.data.Len() > 0 {
        EmptyIsAccounted();
        PutStaysAccounted(g.Buffer(), a);
        OthersStay(wc.perFile, key, PutArticle(g.Buffer(), a));
      }
      taken := wc.Buffer(key, a);
    }

    /** Buffer an article's bytes, or write them; either way they are taken charge of. */
    method Accept(a: BufferedArticle) returns (ok: bool)
      requires Valid()
      modifies this, wc, wc.pool
      ensures Valid() && (Model(), ok) == Writing.Accept(old(Model()), wc.limit, a) && Others() == old(Others())
    {
      Claim(a.offset, a.id);
      var taken := BufferArticle(a);
      if taken {
        ok := FlushContiguous();
      } else {
        ok := WriteOne(a);
      }
    }

    // ----- the barrier's side

    /** What a flush does with the articles it never attempted. */
    method Abandon(rest: seq<BufferedArticle>)
      modifies this, wc.pool
      ensures Model() == Writing.Abandon(old(Model()), rest)
    {
      for i := 0 to |rest|
        invariant Record() == old(Record()) && wc.pool.freed + LoansOf(rest[i..]) == old(wc.pool.freed) + LoansOf(rest)
      {
        if rest[i].data.Buf? {
          wc.pool.PutBuffer(rest[i].data);
        }
      }
      for i := 0 to |rest|
        invariant wc.pool.freed == old(wc.pool.freed) + LoansOf(rest)
        invariant Writing.FailAll(Record(), PartsOf(rest[i..])) == Writing.FailAll(old(Record()), PartsOf(rest))
      {
        PartsTail(rest[i..]);
        Fail(rest[i].id);
      }
      AbandonIsFreeThenFail(old(Model()), rest);
    }

    /** Write drained articles in order; the first fault stops it. */
    method WriteInOrder(arts: seq<BufferedArticle>) returns (ok: bool)
      modifies this, wc.pool
      ensures (Model(), ok) == Writing.WriteInOrder(old(Model()), arts)
    {
      for i := 0 to |arts|
        invariant Writing.WriteInOrder(Model(), arts[i..]) == Writing.WriteInOrder(old(Model()), arts)
      {
        ghost var rest := arts[i..];
        assert rest[0] == arts[i] && rest[1..] == arts[i + 1..];
        var landed := WriteOne(arts[i]);
        if !landed {
          Abandon(arts[i + 1..]);
          return false;
        }
      }
      ok := true;
    }

    method Drain() returns (report: seq<WrittenArticle>, ok: bool)
      requires Valid()
      modifies this, wc, wc.pool
      ensures Valid() && (Model(), ok) == Writing.Drain(old(Model())) && report == Model().w.reported
      ensures Others() == old(Others())
    {
      if key in wc.perFile {
        DrainKeepsAccount(wc.perFile[key]);
        OthersStay(wc.perFile, key, Drained(wc.perFile[key]));
      }
      var arts := wc.DrainFile(key);
      ok := WriteInOrder(arts);
      reported := reported + written;
      written := [];
      report := reported;
    }

    /** Cut the file to a length, unless that is negative. */
    method Truncate(bound: int)
      modifies this`file, this`cut
      ensures Model() == Writing.Truncate(old(Model()), bound)
    {
      cut := cut || Writing.Cuts(Record(), bound);
      if bound < 0 {
        return;
      }
      file := file.(bytes := map k | k in file.bytes && k < bound :: file.bytes[k]);
    }

    method Confirm()
      modifies this
      ensures Model() == Writing.Confirm(old(Model()))
    {
      reported := [];
    }
  }
}
