/** The articles a file holds: buffered, or claimed and not confirmed. A drain reports all of them. */
module HeldArticles {
  import opened Types
  import opened FileBuffer
  import opened Writing
  import opened WriterInvariant
  import opened WriterRuns
  import opened DrainTruth

  ghost predicate Unconfirmed(w: Writer, id: int) {
    Reports(w.reported, id) || Reports(w.written, id)
  }

  ghost predicate Holding(f: File, hand: seq<BufferedArticle>, id: int) {
    Flying(f, hand, id) || Unconfirmed(f.w, id)
  }

  /** Whatever one holds, the other held. */
  ghost predicate Within(f: File, from: seq<BufferedArticle>, g: File, to: seq<BufferedArticle>) {
    forall id | Holding(g, to, id) :: Holding(f, from, id)
  }

  lemma ReportsAppend(report: seq<WrittenArticle>, r: WrittenArticle, id: int)
    ensures Reports(report + [r], id) <==> Reports(report, id) || r.artIdx == id
  {
    if Reports(report, id) {
      var i :| 0 <= i < |report| && report[i].artIdx == id;
      assert (report + [r])[i] == report[i];
    }
    assert (report + [r])[|report|] == r;
  }

  lemma ReportsConcat(a: seq<WrittenArticle>, b: seq<WrittenArticle>, id: int)
    ensures Reports(a + b, id) <==> Reports(a, id) || Reports(b, id)
  {
    if Reports(a, id) {
      var i :| 0 <= i < |a| && a[i].artIdx == id;
      assert (a + b)[i] == a[i];
    }
    if Reports(b, id) {
      var i :| 0 <= i < |b| && b[i].artIdx == id;
      assert (a + b)[|a| + i] == b[i];
    }
  }

  lemma FlewBefore(f: File, g: File, hand: seq<BufferedArticle>, id: int)
    requires hand != [] && g.buf == f.buf && HandIsFresh(f, hand) && Flying(g, hand[1..], id)
    ensures Flying(f, hand, id)
  {
    var a :| InFlight(g, hand[1..], a) && a.id == id;
    Narrow(f, g, hand, a);
  }

  lemma NoteHolds(f: File, g: File, hand: seq<BufferedArticle>, d: Disk)
    requires Inv(f, hand) && hand != []
    requires g.w == NoteWritten(f.w.(handle := d), PartOf(hand[0])) && g.buf == f.buf
    ensures Within(f, hand, g, hand[1..])
  {
    assert InFlight(f, hand, hand[0]);
    forall id | Holding(g, hand[1..], id) ensures Holding(f, hand, id) {
      ReportsAppend(f.w.written, WrittenArticle(hand[0].id, hand[0].offset, hand[0].data.Len(), hand[0].crc32), id);
      if Flying(g, hand[1..], id) {
        FlewBefore(f, g, hand, id);
      }
    }
  }

  lemma FailHolds(f: File, g: File, hand: seq<BufferedArticle>, d: Disk)
    requires Inv(f, hand) && hand != []
    requires g.w == Fail(f.w.(handle := d), hand[0].id) && g.buf == f.buf
    ensures Within(f, hand, g, hand[1..])
  {
    forall id | Holding(g, hand[1..], id) ensures Holding(f, hand, id) {
      if Flying(g, hand[1..], id) {
        FlewBefore(f, g, hand, id);
      }
    }
  }

  lemma {:induction false} AbandonHolds(f: File, rest: seq<BufferedArticle>)
    requires Inv(f, rest)
    ensures Within(f, rest, Abandon(f, rest), [])
    decreases |rest|
  {
    if rest != [] {
      var g := f.(w := Fail(f.w, rest[0].id), freed := f.freed + rest[0].data.Loan());
      FailKeepsInv(f, g, rest, f.w.handle);
      FailHolds(f, g, rest, f.w.handle);
      AbandonHolds(g, rest[1..]);
    }
  }

  lemma {:induction false} WriteInOrderHolds(f: File, arts: seq<BufferedArticle>)
    requires Inv(f, arts)
    ensures Within(f, arts, WriteInOrder(f, arts).0, [])
    decreases |arts|
  {
    if arts != [] {
      var (g, ok) := WriteOne(f, arts[0]);
      WriteOneKeepsInv(f, arts);
      if ok {
        NoteHolds(f, g, arts, g.w.handle);
        WriteInOrderHolds(g, arts[1..]);
      } else {
        FailHolds(f, g, arts, g.w.handle);
        AbandonHolds(g, arts[1..]);
      }
    }
  }

  lemma {:induction false} NoteAllHolds(f: File, hand: seq<BufferedArticle>)
    requires Inv(f, hand)
    ensures Within(f, hand, f.(w := NoteAll(f.w, PartsOf(hand))), [])
    decreases |hand|
  {
    if hand != [] {
      var g := f.(w := NoteWritten(f.w, PartOf(hand[0])));
      NoteKeepsInv(f, g, hand, f.w.handle);
      NoteHolds(f, g, hand, f.w.handle);
      PartsTail(hand);
      NoteAllHolds(g, hand[1..]);
    }
  }

  lemma {:induction false} FailAllHolds(f: File, hand: seq<BufferedArticle>)
    requires Inv(f, hand)
    ensures Within(f, hand, f.(w := FailAll(f.w, PartsOf(hand))), [])
    decreases |hand|
  {
    if hand != [] {
      var g := f.(w := Fail(f.w, hand[0].id));
      FailKeepsInv(f, g, hand, f.w.handle);
      FailHolds(f, g, hand, f.w.handle);
      PartsTail(hand);
      FailAllHolds(g, hand[1..]);
    }
  }

  /** Bytes that only moved, or went away, with no new claim. */
  lemma FewerFlyHolds(f: File, from: seq<BufferedArticle>, g: File, to: seq<BufferedArticle>)
    requires forall id | Unconfirmed(g.w, id) :: Unconfirmed(f.w, id)
    requires forall a | InFlight(g, to, a) :: InFlight(f, from, a)
    ensures Within(f, from, g, to)
  {
    forall id | Flying(g, to, id) ensures Flying(f, from, id) {
      var a :| InFlight(g, to, a) && a.id == id;
      assert InFlight(f, from, a);
    }
  }

  lemma TakeOutHolds(f: File, g: File, hand: seq<BufferedArticle>)
    requires Inv(f, []) && f.buf.Some? && g.buf.Some? && g.w == f.w
    requires Holds(f.Articles(), hand) && DistinctOffsets(hand)
    requires g.buf.value.articles == f.Articles() - Offsets(hand) && Accounted(g.buf.value)
    ensures Inv(g, hand) && Within(f, [], g, hand)
  {
    HandOverKeepsInv(f, g, hand);
    forall a | InFlight(g, hand, a) ensures InFlight(f, [], a) {
      HandOverSameFlight(f, g, hand, a);
    }
    FewerFlyHolds(f, [], g, hand);
  }

  lemma FlushAllHolds(f: File)
    requires Inv(f, [])
    ensures Within(f, [], FlushAll(f).0, [])
  {
    if f.buf.Some? {
      var arts := Sorted(f.Articles());
      var g := f.(buf := Some(Drained(f.buf.value)));
      SortedIsSorted(f.Articles());
      DrainKeepsAccount(f.buf.value);
      AllTaken(f.Articles(), arts);
      TakeOutHolds(f, g, arts);
      WriteInOrderHolds(g, arts);
    }
  }

  lemma WriteRunHolds(f: File, hand: seq<BufferedArticle>, run: FlushRun)
    requires Inv(f, hand) && run.parts == PartsOf(hand)
    ensures Within(f, hand, WriteRun(f, run).0, [])
  {
    var g := f.(w := f.w.(handle := WriteAt(f.w.handle, run.data, run.offset).0));
    SameRecordKeepsInv(f, g, hand);
    assert forall a :: InFlight(g, hand, a) <==> InFlight(f, hand, a);
    FewerFlyHolds(f, hand, g, hand);
    NoteAllHolds(g, hand);
    FailAllHolds(g, hand);
  }

  lemma FlushContiguousHolds(f: File)
    requires Inv(f, [])
    ensures Within(f, [], FlushContiguous(f).0, [])
  {
    if f.buf.Some? && BuildRun(f.buf.value, CONTIGUOUS_RUN_SIZE).0.Some? {
      var fb := f.buf.value;
      var hand := Contiguous(fb.articles, fb.writeCursor);
      RunTaken(fb, CONTIGUOUS_RUN_SIZE);
      RunKeepsAccount(fb, CONTIGUOUS_RUN_SIZE);
      var (r, rest) := BuildRun(fb, CONTIGUOUS_RUN_SIZE);
      var g := f.(buf := Some(rest), freed := f.freed + LoansOf(hand));
      TakeOutHolds(f, g, hand);
      WriteRunHolds(g, hand, r.value);
    }
  }

  /** The arrival joins what is held, and nothing else does. */
  ghost predicate WithinBut(f: File, g: File, to: seq<BufferedArticle>, id: int) {
    forall i | Holding(g, to, i) :: i == id || Holding(f, [], i)
  }

  lemma ClaimHolds(f: File, a: BufferedArticle)
    requires f.buf.Some? ==> Accounted(f.buf.value)
    ensures WithinBut(f, Claim(f, a.offset, a.id), [a], a.id)
  {
    var g := Claim(f, a.offset, a.id);
    ClaimOnlyGrounds(f, a.offset, a.id);
    forall i | Flying(g, [a], i) && i != a.id ensures Flying(f, [], i) {
      var b :| InFlight(g, [a], b) && b.id == i;
      assert InFlight(g, [], b);
    }
  }

  lemma AcceptHolds(f: File, limit: int, a: BufferedArticle)
    requires InvBut(f, a.id) && !OffsetSettledBy(f.w, a.offset, a.id)
    ensures WithinBut(f, Accept(f, limit, a).0, [], a.id)
  {
    var g := Claim(f, a.offset, a.id);
    ClaimKeepsInvBut(f, a.offset, a.id);
    ClaimHolds(f, a);
    HoldArrival(g, a);
    if limit > 0 && a.data.Len() > 0 {
      var h := g.(buf := Some(PutArticle(g.Buffer(), a)), freed := g.freed + LoanAt(g.Articles(), a.offset));
      BufferKeepsInv(g, h, a);
      forall b | InFlight(h, [], b) ensures InFlight(g, [a], b) {
        BufferSameFlight(g, h, a, b);
      }
      FewerFlyHolds(g, [a], h, []);
      FlushContiguousHolds(h);
    } else {
      assert WriteInOrder(g, [a]).0 == WriteOne(g, a).0 by {
        assert [a][1..] == [];
      }
      WriteInOrderHolds(g, [a]);
    }
  }

  lemma HandleSuccessHolds(f: File, limit: int, info: FileInfo, a: BufferedArticle)
    requires Inv(f, [])
    ensures WithinBut(f, HandleSuccess(f, limit, info, a).0, [], a.id)
  {
    var g := HandleSuccess(f, limit, info, a).0;
    if a.id in f.w.seenDone {
      FewerFlyHolds(f, [], g, []);
    } else {
      var w := if a.id in f.w.seenFailed then AdmitRetryOfFailed(f.w, a.id) else AdmitAccepted(f.w, a.id);
      AdmitKeepsInvBut(f, w, a.id);
      FewerFlyHolds(f, [], f.(w := w), []);
      if OffsetOutOfRange(info, a.offset, a.data.Len()) || OffsetSettledBy(w, a.offset, a.id) {
        FewerFlyHolds(f, [], g, []);
      } else {
        AcceptHolds(f.(w := w), limit, a);
      }
    }
  }

  lemma TakeHolds(g: File)
    ensures Within(g, [], g.(w := Take(g.w)), [])
  {
    forall id ensures Reports(g.w.reported + g.w.written, id) <==> Unconfirmed(g.w, id) {
      ReportsConcat(g.w.reported, g.w.written, id);
    }
    FewerFlyHolds(g, [], g.(w := Take(g.w)), []);
  }

  /** Nothing but an arrival adds to what a file holds. */
  lemma StepHolds(f: File, limit: int, info: FileInfo, op: FileOp)
    requires Inv(f, []) && !op.Arrive?
    ensures Within(f, [], Step(f, limit, info, op), [])
  {
    match op
    case PressureFlush => FlushAllHolds(f);
    case DrainFile =>
      FlushAllHolds(f);
      TakeHolds(FlushAll(f).0);
    case _ => FewerFlyHolds(f, [], Step(f, limit, info, op), []);
  }

  /** After a drain, failed or not, what the file holds is exactly what the drain reported. */
  lemma DrainReportsAllHeld(f: File, id: int)
    requires Inv(f, [])
    ensures var g := Drain(f).0; Holding(g, [], id) <==> Reports(g.w.reported, id)
  {
    DrainEmptiesTheBuffer(f);
    NobodyFlies(Drain(f).0, id);
  }
}
