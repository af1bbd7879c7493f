/** No write, direct or coalesced, leaves the range the file declared. */
module WriteBounds {
  import opened Types
  import opened FileBuffer
  import opened Writing
  import opened WriterInvariant
  import opened WriterRuns

  /** What the range check is for: no negative offset, no wrap-around, and no end past the size with its slack. */
  ghost predicate Within(info: FileInfo, off: int, n: nat) {
    && 0 <= off && off + n <= 0x7FFF_FFFF_FFFF_FFFF
    && (info.expectedSize > 0 && info.expectedSize + info.expectedSize / 8 <= 0x7FFF_FFFF_FFFF_FFFF ==>
          off + n <= info.expectedSize + info.expectedSize / 8)
  }

  /** The offset and the length are what an int64 and a slice can hold. */
  ghost predicate Representable(a: BufferedArticle) {
    -MAX_INT64 - 1 <= a.offset <= MAX_INT64 && a.data.Len() <= MAX_INT64
  }

  /** The check, made in wrapping arithmetic, refuses exactly the articles that do not fit. */
  lemma RangeCheckIsExact(info: FileInfo, a: BufferedArticle)
    requires Representable(a)
    ensures OffsetOutOfRange(info, a.offset, a.data.Len()) <==> !Within(info, a.offset, a.data.Len())
  {
  }

  ghost predicate LogWithin(w: Writer, info: FileInfo) {
    forall i | 0 <= i < |w.handle.log| :: Within(info, w.handle.log[i].offset, w.handle.log[i].length)
  }

  ghost predicate ArticlesWithin(m: Articles, info: FileInfo) {
    forall o | o in m :: Within(info, m[o].offset, m[o].data.Len())
  }

  ghost predicate AllWithin(arts: seq<BufferedArticle>, info: FileInfo) {
    forall i | 0 <= i < |arts| :: Within(info, arts[i].offset, arts[i].data.Len())
  }

  /** Everything written and everything buffered fits, and so does the place the next run starts from. */
  ghost predicate InBounds(f: File, info: FileInfo) {
    && LogWithin(f.w, info)
    && ArticlesWithin(f.Articles(), info)
    && (f.buf.Some? ==> 0 <= f.buf.value.writeCursor <= MAX_INT64)
  }

  lemma {:induction false} AbandonKeepsHandle(f: File, rest: seq<BufferedArticle>)
    ensures Abandon(f, rest).w.handle == f.w.handle
    decreases |rest|
  {
    if rest != [] {
      AbandonKeepsHandle(f.(w := Fail(f.w, rest[0].id), freed := f.freed + rest[0].data.Loan()), rest[1..]);
    }
  }

  lemma {:induction false} NoteAllKeepsHandle(w: Writer, parts: seq<RunPart>)
    ensures NoteAll(w, parts).handle == w.handle
    decreases |parts|
  {
    if parts != [] {
      NoteAllKeepsHandle(NoteWritten(w, parts[0]), parts[1..]);
    }
  }

  lemma {:induction false} FailAllKeepsHandle(w: Writer, parts: seq<RunPart>)
    ensures FailAll(w, parts).handle == w.handle
    decreases |parts|
  {
    if parts != [] {
      FailAllKeepsHandle(Fail(w, parts[0].id), parts[1..]);
    }
  }

  lemma {:induction false} WriteInOrderBounds(f: File, arts: seq<BufferedArticle>, info: FileInfo)
    requires LogWithin(f.w, info) && AllWithin(arts, info)
    ensures LogWithin(WriteInOrder(f, arts).0.w, info)
    decreases |arts|
  {
    if arts != [] {
      var (g, ok) := WriteOne(f, arts[0]);
      assert g.w.handle.log == f.w.handle.log + [Extent(arts[0].offset, arts[0].data.Len())];
      if ok {
        WriteInOrderBounds(g, arts[1..], info);
      } else {
        AbandonKeepsHandle(g, arts[1..]);
      }
    }
  }

  lemma FrontierWithin(m: Articles, cursor: int, info: FileInfo)
    requires ArticlesWithin(m, info) && 0 <= cursor <= MAX_INT64
    ensures 0 <= Frontier(m, cursor) <= MAX_INT64
  {
  }

  lemma FlushAllBounds(f: File, info: FileInfo)
    requires InBounds(f, info) && (f.buf.Some? ==> Accounted(f.buf.value))
    ensures InBounds(FlushAll(f).0, info)
  {
    if f.buf.Some? {
      var g := f.(buf := Some(Drained(f.buf.value)));
      var arts := Sorted(f.Articles());
      SortedIsSorted(f.Articles());
      FrontierWithin(f.Articles(), f.buf.value.writeCursor, info);
      forall i | 0 <= i < |arts| ensures Within(info, arts[i].offset, arts[i].data.Len()) {
        assert f.Articles()[arts[i].offset] == arts[i];
      }
      WriteInOrderBounds(g, arts, info);
      WriteInOrderKeepsBuffer(g, arts);
    }
  }

  lemma {:induction false} TilesEnd(arts: seq<BufferedArticle>, c: int)
    requires Tiles(arts, c) && arts != []
    ensures arts[|arts| - 1].End() == c + |BytesOf(arts)|
  {
    if |arts| > 1 {
      TilesEnd(arts[1..], arts[0].End());
    }
  }

  /** The run is one write, as long as its articles together; it ends where its last article ends. */
  lemma RunWithin(fb: FileBuf, info: FileInfo)
    requires Accounted(fb) && ArticlesWithin(fb.articles, info) && 0 <= fb.writeCursor <= MAX_INT64
    requires BuildRun(fb, CONTIGUOUS_RUN_SIZE).0.Some?
    ensures var (r, rest) := BuildRun(fb, CONTIGUOUS_RUN_SIZE);
            && Within(info, r.value.offset, |r.value.data|)
            && ArticlesWithin(rest.articles, info) && 0 <= rest.writeCursor <= MAX_INT64
  {
    var run := Contiguous(fb.articles, fb.writeCursor);
    RunTaken(fb, CONTIGUOUS_RUN_SIZE);
    assert run != [];
    TilesEnd(run, fb.writeCursor);
    assert fb.articles[run[|run| - 1].offset] == run[|run| - 1];
  }

  lemma FlushContiguousBounds(f: File, info: FileInfo)
    requires InBounds(f, info) && (f.buf.Some? ==> Accounted(f.buf.value))
    ensures InBounds(FlushContiguous(f).0, info)
  {
    if f.buf.Some? && BuildRun(f.buf.value, CONTIGUOUS_RUN_SIZE).0.Some? {
      var (r, fb) := BuildRun(f.buf.value, CONTIGUOUS_RUN_SIZE);
      RunWithin(f.buf.value, info);
      var d := WriteAt(f.w.handle, r.value.data, r.value.offset).0;
      assert d.log == f.w.handle.log + [Extent(r.value.offset, |r.value.data|)];
      NoteAllKeepsHandle(f.w.(handle := d), r.value.parts);
      FailAllKeepsHandle(f.w.(handle := d), r.value.parts);
    }
  }

  lemma WriteOneBounds(f: File, a: BufferedArticle, info: FileInfo)
    requires InBounds(f, info) && Within(info, a.offset, a.data.Len())
    ensures InBounds(WriteOne(f, a).0, info)
  {
    assert WriteOne(f, a).0.w.handle.log == f.w.handle.log + [Extent(a.offset, a.data.Len())];
  }

  lemma ClaimBounds(f: File, off: int, id: int, info: FileInfo)
    requires InBounds(f, info)
    ensures InBounds(Claim(f, off, id), info)
  {
  }

  lemma AcceptBounds(f: File, limit: int, info: FileInfo, a: BufferedArticle)
    requires InvBut(f, a.id) && InBounds(f, info)
    requires !OffsetSettledBy(f.w, a.offset, a.id) && Within(info, a.offset, a.data.Len())
    ensures InBounds(Accept(f, limit, a).0, info)
  {
    var g := Claim(f, a.offset, a.id);
    ClaimBounds(f, a.offset, a.id, info);
    if limit > 0 && a.data.Len() > 0 {
      ClaimKeepsInvBut(f, a.offset, a.id);
      HoldArrival(g, a);
      var h := g.(buf := Some(PutArticle(g.Buffer(), a)), freed := g.freed + LoanAt(g.Articles(), a.offset));
      BufferKeepsInv(g, h, a);
      FlushContiguousBounds(h, info);
    } else {
      WriteOneBounds(g, a, info);
    }
  }

  lemma StepKeepsBounds(f: File, limit: int, info: FileInfo, op: FileOp)
    requires Inv(f, []) && InBounds(f, info)
    requires op.Arrive? ==> Representable(op.a)
    ensures InBounds(Step(f, limit, info, op), info)
  {
    match op
    case Arrive(a) =>
      if a.id !in f.w.seenDone {
        var w := if a.id in f.w.seenFailed then AdmitRetryOfFailed(f.w, a.id) else AdmitAccepted(f.w, a.id);
        AdmitKeepsInvBut(f, w, a.id);
        RangeCheckIsExact(info, a);
        if !OffsetOutOfRange(info, a.offset, a.data.Len()) && !OffsetSettledBy(w, a.offset, a.id) {
          AcceptBounds(f.(w := w), limit, info, a);
        }
      }
    case PressureFlush => FlushAllBounds(f, info);
    case DrainFile => FlushAllBounds(f, info);
    case _ =>
  }
}
