/** A drain reports only what is in the file. */
module DrainTruth {
  import opened Types
  import opened FileBuffer
  import opened Writing
  import opened WriterInvariant
  import opened WriterRuns
  import opened Settlement

  // Any property of an article's index, offset, bytes and CRC that every delivered copy has;
  // "the CRC is the CRC of these bytes" is one.
  type Genuine = (int, int, seq<byte>, int) -> bool

  // For each offset, the most bytes an article claiming it may carry.
  type Layout = int -> nat

  /** Articles at different offsets do not overlap. */
  ghost predicate Disjoint(lay: Layout) {
    forall o, p | o < p && lay(p) > 0 :: o + lay(o) <= p
  }

  ghost predicate Genuinely(a: BufferedArticle, P: Genuine, lay: Layout) {
    P(a.id, a.offset, a.data.Bytes(), a.crc32) && a.data.Len() <= lay(a.offset)
  }

  ghost predicate Present(c: Content, off: int, n: nat) {
    forall k | off <= k < off + n :: k in c
  }

  ghost function ReadBack(c: Content, off: int, n: nat): (s: seq<byte>)
    requires Present(c, off, n)
    ensures |s| == n && forall i | 0 <= i < n :: s[i] == c[off + i]
  {
    seq(n, i requires 0 <= i < n => assert off <= off + i < off + n; c[off + i])
  }

  /** The claim holds of the file: its range reads back as an article genuine for that claim. */
  ghost predicate Backed(c: Content, r: WrittenArticle, P: Genuine, lay: Layout) {
    && r.length <= lay(r.offset)
    && Present(c, r.offset, r.length)
    && P(r.artIdx, r.offset, ReadBack(c, r.offset, r.length), r.crc32)
  }

  /** Every claim holds of the file, unless a truncation has cut into one. */
  ghost predicate AllBacked(w: Writer, P: Genuine, lay: Layout) {
    w.cut || forall i | 0 <= i < |w.noted| :: Backed(w.handle.bytes, w.noted[i], P, lay)
  }

  ghost predicate FlightGenuine(f: File, hand: seq<BufferedArticle>, P: Genuine, lay: Layout) {
    forall a | InFlight(f, hand, a) :: Genuinely(a, P, lay)
  }

  ghost predicate Truthful(f: File, hand: seq<BufferedArticle>, P: Genuine, lay: Layout) {
    Inv(f, hand) && AllBacked(f.w, P, lay) && FlightGenuine(f, hand, P, lay)
  }

  ghost predicate IsDown(c: Content, a: BufferedArticle) {
    forall k | a.offset <= k < a.End() :: k in c && c[k] == a.data.Bytes()[k - a.offset]
  }

  // ----- writes

  ghost predicate Agree(c: Content, d: Content, off: int, n: nat) {
    forall k | off <= k < off + n :: (k in c <==> k in d) && (k in c ==> c[k] == d[k])
  }

  lemma AgreeKeepsBacked(c: Content, d: Content, r: WrittenArticle, P: Genuine, lay: Layout)
    requires Backed(c, r, P, lay) && Agree(c, d, r.offset, r.length)
    ensures Backed(d, r, P, lay)
  {
    assert Present(d, r.offset, r.length);
    assert ReadBack(c, r.offset, r.length) == ReadBack(d, r.offset, r.length);
  }

  lemma WriteTouchesItsRange(d: Disk, p: seq<byte>, off: int, k: int)
    requires k < off || off + |p| <= k
    ensures var c := WriteAt(d, p, off).0.bytes;
            (k in c <==> k in d.bytes) && (k in c ==> c[k] == d.bytes[k])
  {
  }

  lemma WriteLands(d: Disk, p: seq<byte>, off: int, k: int)
    requires WriteAt(d, p, off).1 && off <= k < off + |p|
    ensures var c := WriteAt(d, p, off).0.bytes;
            k in c && c[k] == p[k - off]
  {
  }

  lemma WriteElsewhere(d: Disk, p: seq<byte>, off: int, r: WrittenArticle, lay: Layout)
    requires Disjoint(lay) && r.offset != off
    requires |p| <= lay(off) && r.length <= lay(r.offset)
    ensures Agree(d.bytes, WriteAt(d, p, off).0.bytes, r.offset, r.length)
  {
  }

  lemma ClaimsAreElsewhere(f: File, hand: seq<BufferedArticle>, a: BufferedArticle)
    requires Inv(f, hand) && InFlight(f, hand, a)
    ensures forall i | 0 <= i < |f.w.noted| :: f.w.noted[i].offset != a.offset
  {
  }

  lemma WriteKeepsBacked(w: Writer, p: seq<byte>, off: int, P: Genuine, lay: Layout)
    requires Disjoint(lay) && AllBacked(w, P, lay) && |p| <= lay(off)
    requires forall i | 0 <= i < |w.noted| :: w.noted[i].offset != off
    ensures AllBacked(w.(handle := WriteAt(w.handle, p, off).0), P, lay)
  {
    forall i | 0 <= i < |w.noted| && !w.cut ensures Backed(WriteAt(w.handle, p, off).0.bytes, w.noted[i], P, lay) {
      WriteElsewhere(w.handle, p, off, w.noted[i], lay);
      AgreeKeepsBacked(w.handle.bytes, WriteAt(w.handle, p, off).0.bytes, w.noted[i], P, lay);
    }
  }

  lemma NoteKeepsBacked(w: Writer, a: BufferedArticle, P: Genuine, lay: Layout)
    requires AllBacked(w, P, lay) && Genuinely(a, P, lay)
    requires IsDown(w.handle.bytes, a)
    ensures AllBacked(NoteWritten(w, PartOf(a)), P, lay)
  {
    FreshClaimIsBacked(w.handle.bytes, a, P, lay);
  }

  lemma HandShrinks(f: File, g: File, hand: seq<BufferedArticle>, P: Genuine, lay: Layout)
    requires hand != [] && g.buf == f.buf && HandIsFresh(f, hand)
    requires FlightGenuine(f, hand, P, lay)
    ensures FlightGenuine(g, hand[1..], P, lay)
  {
  }

  lemma WriteOneKeepsTruth(f: File, hand: seq<BufferedArticle>, P: Genuine, lay: Layout)
    requires Disjoint(lay) && Truthful(f, hand, P, lay) && hand != []
    ensures Truthful(WriteOne(f, hand[0]).0, hand[1..], P, lay)
  {
    var a := hand[0];
    var (g, ok) := WriteOne(f, a);
    assert InFlight(f, hand, a);
    WriteOneKeepsInv(f, hand);
    HandShrinks(f, g, hand, P, lay);
    ClaimsAreElsewhere(f, hand, a);
    WriteOneBacks(f, a, P, lay);
  }

  lemma WriteOneBacks(f: File, a: BufferedArticle, P: Genuine, lay: Layout)
    requires Disjoint(lay) && AllBacked(f.w, P, lay) && Genuinely(a, P, lay)
    requires forall i | 0 <= i < |f.w.noted| :: f.w.noted[i].offset != a.offset
    ensures AllBacked(WriteOne(f, a).0.w, P, lay)
  {
    var (d, ok) := WriteAt(f.w.handle, a.data.Bytes(), a.offset);
    WriteKeepsBacked(f.w, a.data.Bytes(), a.offset, P, lay);
    if ok {
      NoteKeepsBacked(f.w.(handle := d), a, P, lay);
    }
  }

  lemma FreshClaimIsBacked(c: Content, a: BufferedArticle, P: Genuine, lay: Layout)
    requires Genuinely(a, P, lay)
    requires IsDown(c, a)
    ensures Backed(c, WrittenArticle(a.id, a.offset, a.data.Len(), a.crc32), P, lay)
  {
    assert Present(c, a.offset, a.data.Len());
    assert ReadBack(c, a.offset, a.data.Len()) == a.data.Bytes();
  }

  lemma {:induction false} AbandonKeepsTruth(f: File, rest: seq<BufferedArticle>, P: Genuine, lay: Layout)
    requires Truthful(f, rest, P, lay)
    ensures Truthful(Abandon(f, rest), [], P, lay)
    decreases |rest|
  {
    if rest == [] {
    } else {
      var g := f.(w := Fail(f.w, rest[0].id), freed := f.freed + rest[0].data.Loan());
      FailKeepsInv(f, g, rest, f.w.handle);
      HandShrinks(f, g, rest, P, lay);
      AbandonKeepsTruth(g, rest[1..], P, lay);
    }
  }

  lemma {:induction false} WriteInOrderKeepsTruth(f: File, arts: seq<BufferedArticle>, P: Genuine, lay: Layout)
    requires Disjoint(lay) && Truthful(f, arts, P, lay)
    ensures Truthful(WriteInOrder(f, arts).0, [], P, lay)
    decreases |arts|
  {
    if arts == [] {
    } else {
      var (g, ok) := WriteOne(f, arts[0]);
      WriteOneKeepsTruth(f, arts, P, lay);
      if ok {
        WriteInOrderKeepsTruth(g, arts[1..], P, lay);
      } else {
        AbandonKeepsTruth(g, arts[1..], P, lay);
      }
    }
  }

  // ----- coalesced runs

  lemma RunLandsAt(d: Disk, hand: seq<BufferedArticle>, c: int, i: nat, k: int)
    requires Tiles(hand, c) && i < |hand| && hand[i].offset <= k < hand[i].End()
    requires WriteAt(d, BytesOf(hand), c).1
    ensures var e := WriteAt(d, BytesOf(hand), c).0.bytes;
            k in e && e[k] == hand[i].data.Bytes()[k - hand[i].offset]
  {
    TilesStayInside(hand, c, i);
    var j := TilesCoverRun(hand, c, k);
    TilesDoNotOverlap(hand, c, i, j, k);
    WriteLands(d, BytesOf(hand), c, k);
  }

  /** After the merged write every part's bytes are at the part's own place. */
  lemma RunLandsEveryPart(d: Disk, hand: seq<BufferedArticle>, c: int, i: nat)
    requires Tiles(hand, c) && i < |hand|
    requires WriteAt(d, BytesOf(hand), c).1
    ensures IsDown(WriteAt(d, BytesOf(hand), c).0.bytes, hand[i])
  {
    var a, e := hand[i], WriteAt(d, BytesOf(hand), c).0.bytes;
    forall k | a.offset <= k < a.End() ensures k in e && e[k] == a.data.Bytes()[k - a.offset] {
      RunLandsAt(d, hand, c, i, k);
    }
  }

  lemma {:induction false} TilesDoNotOverlap(hand: seq<BufferedArticle>, c: int, i: nat, j: nat, k: int)
    requires Tiles(hand, c) && i < |hand| && j < |hand|
    requires hand[i].offset <= k < hand[i].End() && hand[j].offset <= k < hand[j].End()
    ensures i == j
  {
    if i == 0 && j > 0 {
      TilesStayInside(hand[1..], hand[0].End(), j - 1);
    } else if j == 0 && i > 0 {
      TilesStayInside(hand[1..], hand[0].End(), i - 1);
    } else if i > 0 && j > 0 {
      TilesDoNotOverlap(hand[1..], hand[0].End(), i - 1, j - 1, k);
    }
  }

  /** The merged write, complete or torn, touches nobody else's bytes. */
  lemma RunWritesElsewhere(d: Disk, hand: seq<BufferedArticle>, c: int, r: WrittenArticle, lay: Layout)
    requires Disjoint(lay) && Tiles(hand, c) && r.length <= lay(r.offset)
    requires forall i | 0 <= i < |hand| :: hand[i].offset != r.offset && hand[i].data.Len() <= lay(hand[i].offset)
    ensures Agree(d.bytes, WriteAt(d, BytesOf(hand), c).0.bytes, r.offset, r.length)
  {
    forall k | r.offset <= k < r.offset + r.length
      ensures var e := WriteAt(d, BytesOf(hand), c).0.bytes;
              (k in e <==> k in d.bytes) && (k in e ==> e[k] == d.bytes[k])
    {
      if c <= k < c + |BytesOf(hand)| {
        var i := TilesCoverRun(hand, c, k);
        assert false;
      } else {
        WriteTouchesItsRange(d, BytesOf(hand), c, k);
      }
    }
  }

  ghost predicate HandIsDown(c: Content, hand: seq<BufferedArticle>) {
    forall i | 0 <= i < |hand| :: IsDown(c, hand[i])
  }

  lemma NoteOneKeepsTruth(f: File, g: File, hand: seq<BufferedArticle>, P: Genuine, lay: Layout)
    requires Truthful(f, hand, P, lay) && hand != [] && IsDown(f.w.handle.bytes, hand[0])
    requires g == f.(w := NoteWritten(f.w, PartOf(hand[0])))
    ensures Truthful(g, hand[1..], P, lay)
  {
    NoteKeepsInv(f, g, hand, f.w.handle);
    assert InFlight(f, hand, hand[0]);
    NoteKeepsBacked(f.w, hand[0], P, lay);
    HandShrinks(f, g, hand, P, lay);
  }

  lemma {:induction false} NoteAllKeepsTruth(f: File, hand: seq<BufferedArticle>, P: Genuine, lay: Layout)
    requires Truthful(f, hand, P, lay) && HandIsDown(f.w.handle.bytes, hand)
    ensures Truthful(f.(w := NoteAll(f.w, PartsOf(hand))), [], P, lay)
    decreases |hand|
  {
    if hand == [] {
    } else {
      var g := f.(w := NoteWritten(f.w, PartOf(hand[0])));
      NoteOneKeepsTruth(f, g, hand, P, lay);
      PartsTail(hand);
      NoteAllKeepsTruth(g, hand[1..], P, lay);
    }
  }

  lemma {:induction false} FailAllKeepsTruth(f: File, hand: seq<BufferedArticle>, P: Genuine, lay: Layout)
    requires Truthful(f, hand, P, lay)
    ensures Truthful(f.(w := FailAll(f.w, PartsOf(hand))), [], P, lay)
    decreases |hand|
  {
    if hand == [] {
    } else {
      var g := f.(w := Fail(f.w, hand[0].id));
      FailKeepsInv(f, g, hand, f.w.handle);
      HandShrinks(f, g, hand, P, lay);
      PartsTail(hand);
      FailAllKeepsTruth(g, hand[1..], P, lay);
    }
  }

  lemma RunKeepsBacked(w: Writer, hand: seq<BufferedArticle>, c: int, P: Genuine, lay: Layout)
    requires Disjoint(lay) && AllBacked(w, P, lay) && Tiles(hand, c)
    requires forall j | 0 <= j < |hand| :: Genuinely(hand[j], P, lay)
    requires forall i, j | 0 <= i < |w.noted| && 0 <= j < |hand| :: w.noted[i].offset != hand[j].offset
    ensures AllBacked(w.(handle := WriteAt(w.handle, BytesOf(hand), c).0), P, lay)
  {
    forall i | 0 <= i < |w.noted| && !w.cut
      ensures Backed(WriteAt(w.handle, BytesOf(hand), c).0.bytes, w.noted[i], P, lay)
    {
      RunWritesElsewhere(w.handle, hand, c, w.noted[i], lay);
      AgreeKeepsBacked(w.handle.bytes, WriteAt(w.handle, BytesOf(hand), c).0.bytes, w.noted[i], P, lay);
    }
  }

  lemma RunIsDown(d: Disk, hand: seq<BufferedArticle>, c: int)
    requires Tiles(hand, c) && WriteAt(d, BytesOf(hand), c).1
    ensures HandIsDown(WriteAt(d, BytesOf(hand), c).0.bytes, hand)
  {
    forall i | 0 <= i < |hand| ensures IsDown(WriteAt(d, BytesOf(hand), c).0.bytes, hand[i]) {
      RunLandsEveryPart(d, hand, c, i);
    }
  }

  lemma HandIsGenuine(f: File, hand: seq<BufferedArticle>, P: Genuine, lay: Layout)
    requires Truthful(f, hand, P, lay)
    ensures forall j | 0 <= j < |hand| :: Genuinely(hand[j], P, lay)
    ensures forall i, j | 0 <= i < |f.w.noted| && 0 <= j < |hand| :: f.w.noted[i].offset != hand[j].offset
  {
  }

  lemma WriteRunKeepsTruth(f: File, hand: seq<BufferedArticle>, run: FlushRun, P: Genuine, lay: Layout)
    requires Disjoint(lay) && Truthful(f, hand, P, lay)
    requires Tiles(hand, run.offset) && run.data == BytesOf(hand) && run.parts == PartsOf(hand)
    ensures Truthful(WriteRun(f, run).0, [], P, lay)
  {
    var (d, ok) := WriteAt(f.w.handle, run.data, run.offset);
    var g := f.(w := f.w.(handle := d));
    AfterRunWrite(f, hand, run, P, lay);
    if ok {
      RunIsDown(f.w.handle, hand, run.offset);
      NoteAllKeepsTruth(g, hand, P, lay);
    } else {
      FailAllKeepsTruth(g, hand, P, lay);
    }
  }

  lemma AfterRunWrite(f: File, hand: seq<BufferedArticle>, run: FlushRun, P: Genuine, lay: Layout)
    requires Disjoint(lay) && Truthful(f, hand, P, lay)
    requires Tiles(hand, run.offset) && run.data == BytesOf(hand)
    ensures Truthful(f.(w := f.w.(handle := WriteAt(f.w.handle, run.data, run.offset).0)), hand, P, lay)
  {
    var g := f.(w := f.w.(handle := WriteAt(f.w.handle, run.data, run.offset).0));
    SameRecordKeepsInv(f, g, hand);
    HandIsGenuine(f, hand, P, lay);
    RunKeepsBacked(f.w, hand, run.offset, P, lay);
    forall b | InFlight(g, hand, b) ensures Genuinely(b, P, lay) {
      assert InFlight(f, hand, b);
    }
  }

  // ----- operations

  lemma FlightOnlyMoves(f: File, from: seq<BufferedArticle>, g: File, to: seq<BufferedArticle>, P: Genuine, lay: Layout)
    requires Truthful(f, from, P, lay) && Inv(g, to)
    requires g.w.noted == f.w.noted && g.w.handle == f.w.handle && g.w.cut == f.w.cut
    requires forall a | InFlight(g, to, a) :: InFlight(f, from, a)
    ensures Truthful(g, to, P, lay)
  {
  }

  lemma FlushAllKeepsTruth(f: File, P: Genuine, lay: Layout)
    requires Disjoint(lay) && Truthful(f, [], P, lay)
    ensures Truthful(FlushAll(f).0, [], P, lay)
  {
    if f.buf.Some? {
      var arts := Sorted(f.Articles());
      var g := f.(buf := Some(Drained(f.buf.value)));
      SortedIsSorted(f.Articles());
      DrainKeepsAccount(f.buf.value);
      AllTaken(f.Articles(), arts);
      TakeOutKeepsTruth(f, g, arts, P, lay);
      WriteInOrderKeepsTruth(g, arts, P, lay);
    }
  }

  lemma TakeOutKeepsTruth(f: File, g: File, hand: seq<BufferedArticle>, P: Genuine, lay: Layout)
    requires Truthful(f, [], P, lay) && f.buf.Some? && g.buf.Some? && g.w == f.w
    requires Holds(f.Articles(), hand) && DistinctOffsets(hand)
    requires g.buf.value.articles == f.Articles() - Offsets(hand) && Accounted(g.buf.value)
    ensures Truthful(g, hand, P, lay)
  {
    HandOverKeepsInv(f, g, hand);
    forall a | InFlight(g, hand, a) ensures InFlight(f, [], a) {
      HandOverSameFlight(f, g, hand, a);
    }
    FlightOnlyMoves(f, [], g, hand, P, lay);
  }

  lemma FlushContiguousKeepsTruth(f: File, P: Genuine, lay: Layout)
    requires Disjoint(lay) && Truthful(f, [], P, lay)
    ensures Truthful(FlushContiguous(f).0, [], P, lay)
  {
    if f.buf.Some? && BuildRun(f.buf.value, CONTIGUOUS_RUN_SIZE).0.Some? {
      var fb := f.buf.value;
      var hand := Contiguous(fb.articles, fb.writeCursor);
      RunTaken(fb, CONTIGUOUS_RUN_SIZE);
      RunKeepsAccount(fb, CONTIGUOUS_RUN_SIZE);
      var (r, fb') := BuildRun(fb, CONTIGUOUS_RUN_SIZE);
      var g := f.(buf := Some(fb'), freed := f.freed + LoansOf(hand));
      TakeOutKeepsTruth(f, g, hand, P, lay);
      WriteRunKeepsTruth(g, hand, r.value, P, lay);
    }
  }

  /** Claiming an offset writes nothing and puts nothing in flight. */
  lemma ClaimOnlyGrounds(f: File, off: int, id: int)
    requires f.buf.Some? ==> Accounted(f.buf.value)
    ensures forall a | InFlight(Claim(f, off, id), [], a) :: InFlight(f, [], a)
    ensures Claim(f, off, id).w.noted == f.w.noted && Claim(f, off, id).w.handle == f.w.handle
  {
  }

  lemma ArrivalIsGenuine(g: File, a: BufferedArticle, P: Genuine, lay: Layout)
    requires InvBut(g, a.id) && a.offset !in g.Articles()
    requires a.offset in g.w.acceptedAt && g.w.acceptedAt[a.offset] == OffsetOwner(a.id, false)
    requires AllBacked(g.w, P, lay) && FlightGenuine(g, [], P, lay) && Genuinely(a, P, lay)
    ensures Truthful(g, [a], P, lay)
  {
  }

  lemma AcceptKeepsTruth(f: File, limit: int, a: BufferedArticle, P: Genuine, lay: Layout)
    requires InvBut(f, a.id) && !OffsetSettledBy(f.w, a.offset, a.id)
    requires Disjoint(lay) && AllBacked(f.w, P, lay) && FlightGenuine(f, [], P, lay) && Genuinely(a, P, lay)
    ensures Truthful(Accept(f, limit, a).0, [], P, lay)
  {
    var g := Claim(f, a.offset, a.id);
    ClaimKeepsInvBut(f, a.offset, a.id);
    ClaimOnlyGrounds(f, a.offset, a.id);
    ArrivalIsGenuine(g, a, P, lay);
    if limit > 0 && a.data.Len() > 0 {
      var h := g.(buf := Some(PutArticle(g.Buffer(), a)), freed := g.freed + LoanAt(g.Articles(), a.offset));
      BufferKeepsInv(g, h, a);
      forall b | InFlight(h, [], b) ensures InFlight(g, [a], b) {
        BufferSameFlight(g, h, a, b);
      }
      FlightOnlyMoves(g, [a], h, [], P, lay);
      FlushContiguousKeepsTruth(h, P, lay);
    } else {
      WriteOneKeepsTruth(g, [a], P, lay);
      assert [a][1..] == [];
    }
  }

  lemma AcceptArticleKeepsTruth(f: File, limit: int, info: FileInfo, a: BufferedArticle, P: Genuine, lay: Layout)
    requires InvBut(f, a.id)
    requires Disjoint(lay) && AllBacked(f.w, P, lay) && FlightGenuine(f, [], P, lay) && Genuinely(a, P, lay)
    ensures Truthful(AcceptArticle(f, limit, info, a).0, [], P, lay)
  {
    AcceptArticleKeepsInv(f, limit, info, a);
    if !OffsetOutOfRange(info, a.offset, a.data.Len()) && !OffsetSettledBy(f.w, a.offset, a.id) {
      AcceptKeepsTruth(f, limit, a, P, lay);
    } else {
      var g := AcceptArticle(f, limit, info, a).0;
      assert forall b :: InFlight(g, [], b) <==> InFlight(f, [], b);
    }
  }

  lemma HandleSuccessKeepsTruth(f: File, limit: int, info: FileInfo, a: BufferedArticle, P: Genuine, lay: Layout)
    requires Disjoint(lay) && Truthful(f, [], P, lay) && Genuinely(a, P, lay)
    ensures Truthful(HandleSuccess(f, limit, info, a).0, [], P, lay)
  {
    if a.id in f.w.seenDone {
      var g := HandleSuccess(f, limit, info, a).0;
      SameRecordKeepsInv(f, g, []);
      FlightOnlyMoves(f, [], g, [], P, lay);
    } else {
      var w := if a.id in f.w.seenFailed then AdmitRetryOfFailed(f.w, a.id) else AdmitAccepted(f.w, a.id);
      var g := f.(w := w);
      assert forall b :: InFlight(g, [], b) <==> InFlight(f, [], b);
      AdmitKeepsInvBut(f, w, a.id);
      AcceptArticleKeepsTruth(g, limit, info, a, P, lay);
    }
  }

  lemma DrainKeepsTruth(f: File, P: Genuine, lay: Layout)
    requires Disjoint(lay) && Truthful(f, [], P, lay)
    ensures Truthful(Drain(f).0, [], P, lay)
  {
    FlushAllKeepsTruth(f, P, lay);
    DrainKeepsInv(f);
    FlightOnlyMoves(FlushAll(f).0, [], Drain(f).0, [], P, lay);
  }

  /** A claim cut into is false; any other stays true. */
  lemma CutKeepsBacked(c: Content, r: WrittenArticle, bound: int, P: Genuine, lay: Layout)
    requires Backed(c, r, P, lay) && bound >= 0
    ensures Backed(CutTo(c, bound), r, P, lay) <==> !CutsInto(r, bound)
  {
    if CutsInto(r, bound) {
      assert r.offset + r.length - 1 !in CutTo(c, bound);
    } else {
      AgreeKeepsBacked(c, CutTo(c, bound), r, P, lay);
    }
  }

  /** Every claim stays true if and only if the bound is not below the end of any that has bytes. */
  lemma TruncationIsSafeExactly(f: File, bound: int, P: Genuine, lay: Layout)
    requires !f.w.cut && AllBacked(f.w, P, lay)
    ensures (forall i | 0 <= i < |f.w.noted| :: Backed(Truncate(f, bound).w.handle.bytes, f.w.noted[i], P, lay))
        <==> !Cuts(f.w, bound)
  {
    if bound >= 0 {
      forall i | 0 <= i < |f.w.noted|
        ensures Backed(CutTo(f.w.handle.bytes, bound), f.w.noted[i], P, lay) <==> !CutsInto(f.w.noted[i], bound)
      {
        CutKeepsBacked(f.w.handle.bytes, f.w.noted[i], bound, P, lay);
      }
    }
  }

  lemma TruncateKeepsTruth(f: File, bound: int, P: Genuine, lay: Layout)
    requires Truthful(f, [], P, lay)
    ensures Truthful(Truncate(f, bound), [], P, lay)
  {
    var g := Truncate(f, bound);
    SameRecordKeepsInv(f, g, []);
    assert forall a :: InFlight(g, [], a) <==> InFlight(f, [], a);
    if !g.w.cut {
      TruncationIsSafeExactly(f, bound, P, lay);
    }
  }

  lemma StepKeepsTruth(f: File, limit: int, info: FileInfo, op: FileOp, P: Genuine, lay: Layout)
    requires Disjoint(lay) && Truthful(f, [], P, lay)
    requires op.Arrive? ==> Genuinely(op.a, P, lay)
    ensures Truthful(Step(f, limit, info, op), [], P, lay)
  {
    StepKeepsInv(f, limit, info, op);
    match op
    case Arrive(a) => HandleSuccessKeepsTruth(f, limit, info, a, P, lay);
    case PressureFlush => FlushAllKeepsTruth(f, P, lay);
    case DrainFile => DrainKeepsTruth(f, P, lay);
    case TruncateFile(bound) => TruncateKeepsTruth(f, bound, P, lay);
    case _ => FlightOnlyMoves(f, [], Step(f, limit, info, op), [], P, lay);
  }

  lemma {:induction false} RunKeepsTruth(d: Disk, limit: int, info: FileInfo, ops: seq<FileOp>, P: Genuine, lay: Layout)
    requires Disjoint(lay)
    requires forall i | 0 <= i < |ops| && ops[i].Arrive? :: Genuinely(ops[i].a, P, lay)
    ensures Truthful(Run(NewFile(d), limit, info, ops), [], P, lay)
    decreases |ops|
  {
    if ops == [] {
    } else {
      var most := ops[..|ops| - 1];
      RunKeepsTruth(d, limit, info, most, P, lay);
      StepKeepsTruth(Run(NewFile(d), limit, info, most), limit, info, ops[|ops| - 1], P, lay);
    }
  }

  // ----- what the barrier may rely on

  /** An article is reported when it appears in what the drain hands over. */
  ghost predicate Reports(report: seq<WrittenArticle>, id: int) {
    exists i :: 0 <= i < |report| && report[i].artIdx == id
  }

  /**
   * Everything the drain returned is in the file as the article it names, no article is returned
   * twice, and the same is still true of every claim made earlier.
   */
  ghost predicate HonestReport(w: Writer, P: Genuine, lay: Layout) {
    && (forall i | 0 <= i < |w.reported| :: Backed(w.handle.bytes, w.reported[i], P, lay))
    && (forall i, j | 0 <= i < j < |w.reported| ::
          w.reported[i].artIdx != w.reported[j].artIdx && w.reported[i].offset != w.reported[j].offset)
    && (forall i | 0 <= i < |w.noted| :: Backed(w.handle.bytes, w.noted[i], P, lay))
  }

  /** After any run whatsoever, over any write faults, whose truncations spare the claims made before them. */
  lemma DrainTellsTheTruth(d: Disk, limit: int, info: FileInfo, ops: seq<FileOp>, P: Genuine, lay: Layout)
    requires Disjoint(lay) && TruncationsSpare(d, limit, info, ops)
    requires forall i | 0 <= i < |ops| && ops[i].Arrive? :: Genuinely(ops[i].a, P, lay)
    ensures HonestReport(Drain(Run(NewFile(d), limit, info, ops)).0.w, P, lay)
  {
    var f := Run(NewFile(d), limit, info, ops);
    RunKeepsTruth(d, limit, info, ops, P, lay);
    CutExactly(d, limit, info, ops);
    FlushAllOnward(f);
    DrainKeepsTruth(f, P, lay);
    TruthfulReportIsHonest(Drain(f).0, P, lay);
  }

  lemma TruthfulReportIsHonest(g: File, P: Genuine, lay: Layout)
    requires Truthful(g, [], P, lay) && g.w.written == [] && !g.w.cut
    ensures HonestReport(g.w, P, lay)
  {
    ReportIsDistinct(g);
    ReportIsClaimed(g.w);
  }

  lemma ReportIsClaimed(w: Writer)
    requires ClaimsArePending(w) && w.written == []
    ensures forall i | 0 <= i < |w.reported| :: w.reported[i] == w.noted[|w.noted| - |w.reported| + i]
  {
  }

  lemma ReportIsDistinct(g: File)
    requires Inv(g, []) && g.w.written == []
    ensures forall i, j | 0 <= i < j < |g.w.reported| ::
              g.w.reported[i].artIdx != g.w.reported[j].artIdx && g.w.reported[i].offset != g.w.reported[j].offset
  {
    assert g.w.reported + g.w.written == g.w.reported;
    var k := |g.w.noted| - |g.w.reported|;
    forall i, j | 0 <= i < j < |g.w.reported|
      ensures g.w.reported[i].artIdx != g.w.reported[j].artIdx && g.w.reported[i].offset != g.w.reported[j].offset
    {
      assert g.w.reported[i] == g.w.noted[k + i] && g.w.reported[j] == g.w.noted[k + j];
      assert SettledAt(g.w, g.w.noted[k + i].offset) && SettledAt(g.w, g.w.noted[k + j].offset);
    }
  }

  /**
   * A drain leaves nothing out: after it every accepted article not resolved as failed has been
   * claimed, in this report or in one already confirmed.
   */
  lemma DrainLeavesNothingOut(d: Disk, limit: int, info: FileInfo, ops: seq<FileOp>, id: int)
    ensures var f := Drain(Run(NewFile(d), limit, info, ops)).0;
            id in f.w.seenDone && id !in f.w.seenFailed ==> Reports(f.w.noted, id)
  {
    var f := Run(NewFile(d), limit, info, ops);
    var g := Drain(f).0;
    RunKeepsInv(d, limit, info, ops);
    DrainKeepsInv(f);
    DrainEmptiesTheBuffer(f);
    if id in g.w.seenDone && id !in g.w.seenFailed {
      NobodyFlies(g, id);
      var o :| SettledAt(g.w, o) && g.w.acceptedAt[o].id == id;
      assert Claimed(g.w, o);
      var i :| 0 <= i < |g.w.noted| && g.w.noted[i].offset == o;
      assert SettledAt(g.w, g.w.noted[i].offset);
    }
  }
}
