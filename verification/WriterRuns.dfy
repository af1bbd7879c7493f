/** The invariant of an open file through every operation, and over every run. */
module WriterRuns {
  import opened Types
  import opened FileBuffer
  import opened Writing
  import opened WriterInvariant

  /** What is accounted for stays accounted for, when nothing settled or in flight is taken away. */
  lemma StillThere(f: File, g: File, i: int)
    requires Landed(f.w, i) || Flying(f, [], i)
    requires forall o | SettledAt(f.w, o) :: SettledAt(g.w, o) && g.w.acceptedAt[o].id == f.w.acceptedAt[o].id
    requires forall a | InFlight(f, [], a) && a.id == i :: InFlight(g, [], a)
    ensures Landed(g.w, i) || Flying(g, [], i)
  {
  }

  /** Moving bytes between the cache and a hand changes nothing about what is in flight. */
  lemma SameFlightKeepsInv(f: File, from: seq<BufferedArticle>, g: File, to: seq<BufferedArticle>)
    requires Inv(f, from) && g.w == f.w
    requires forall a :: InFlight(g, to, a) <==> InFlight(f, from, a)
    requires HandIsFresh(g, to) && (g.buf.Some? ==> Accounted(g.buf.value))
    ensures Inv(g, to)
  {
  }

  // ----- batches

  lemma WriteOneKeepsInv(f: File, hand: seq<BufferedArticle>)
    requires Inv(f, hand) && hand != []
    ensures Inv(WriteOne(f, hand[0]).0, hand[1..])
  {
    var d := WriteAt(f.w.handle, hand[0].data.Bytes(), hand[0].offset).0;
    var (g, ok) := WriteOne(f, hand[0]);
    if ok {
      NoteKeepsInv(f, g, hand, d);
    } else {
      FailKeepsInv(f, g, hand, d);
    }
  }

  lemma {:induction false} AbandonKeepsInv(f: File, rest: seq<BufferedArticle>)
    requires Inv(f, rest)
    ensures Inv(Abandon(f, rest), [])
    decreases |rest|
  {
    if rest == [] {
    } else {
      var g := f.(w := Fail(f.w, rest[0].id), freed := f.freed + rest[0].data.Loan());
      FailKeepsInv(f, g, rest, f.w.handle);
      AbandonKeepsInv(g, rest[1..]);
    }
  }

  lemma {:induction false} WriteInOrderKeepsInv(f: File, arts: seq<BufferedArticle>)
    requires Inv(f, arts)
    ensures Inv(WriteInOrder(f, arts).0, [])
    decreases |arts|
  {
    if arts == [] {
    } else {
      var (g, ok) := WriteOne(f, arts[0]);
      WriteOneKeepsInv(f, arts);
      if ok {
        WriteInOrderKeepsInv(g, arts[1..]);
      } else {
        AbandonKeepsInv(g, arts[1..]);
      }
    }
  }

  lemma {:induction false} NoteAllKeepsInv(f: File, hand: seq<BufferedArticle>)
    requires Inv(f, hand)
    ensures Inv(f.(w := NoteAll(f.w, PartsOf(hand))), [])
    decreases |hand|
  {
    if hand == [] {
    } else {
      var g := f.(w := NoteWritten(f.w, PartOf(hand[0])));
      NoteKeepsInv(f, g, hand, f.w.handle);
      PartsTail(hand);
      NoteAllKeepsInv(g, hand[1..]);
    }
  }

  lemma {:induction false} FailAllKeepsInv(f: File, hand: seq<BufferedArticle>)
    requires Inv(f, hand)
    ensures Inv(f.(w := FailAll(f.w, PartsOf(hand))), [])
    decreases |hand|
  {
    if hand == [] {
    } else {
      var g := f.(w := Fail(f.w, hand[0].id));
      FailKeepsInv(f, g, hand, f.w.handle);
      PartsTail(hand);
      FailAllKeepsInv(g, hand[1..]);
    }
  }

  // ----- taking articles out of the cache

  lemma HandOverKeepsInv(f: File, g: File, hand: seq<BufferedArticle>)
    requires Inv(f, []) && f.buf.Some? && g.buf.Some? && g.w == f.w
    requires Holds(f.Articles(), hand) && DistinctOffsets(hand)
    requires g.buf.value.articles == f.Articles() - Offsets(hand) && Accounted(g.buf.value)
    ensures Inv(g, hand)
  {
    forall a ensures InFlight(g, hand, a) <==> InFlight(f, [], a) {
      HandOverSameFlight(f, g, hand, a);
    }
    SameFlightKeepsInv(f, [], g, hand);
  }

  lemma HandOverSameFlight(f: File, g: File, hand: seq<BufferedArticle>, a: BufferedArticle)
    requires f.buf.Some? && g.buf.Some?
    requires Holds(f.Articles(), hand)
    requires g.buf.value.articles == f.Articles() - Offsets(hand)
    ensures InFlight(g, hand, a) <==> InFlight(f, [], a)
  {
    if InFlight(f, [], a) && a.offset in Offsets(hand) {
      var i := FindOffset(hand, a.offset);
      assert hand[i] == a;
    }
    if a in hand {
      var i :| 0 <= i < |hand| && hand[i] == a;
    }
  }

  lemma FlushAllKeepsInv(f: File)
    requires Inv(f, [])
    ensures Inv(FlushAll(f).0, [])
  {
    if f.buf.Some? {
      var arts := Sorted(f.Articles());
      var g := f.(buf := Some(Drained(f.buf.value)));
      SortedIsSorted(f.Articles());
      DrainKeepsAccount(f.buf.value);
      AllTaken(f.Articles(), arts);
      HandOverKeepsInv(f, g, arts);
      WriteInOrderKeepsInv(g, arts);
    }
  }

  lemma DrainKeepsInv(f: File)
    requires Inv(f, [])
    ensures Inv(Drain(f).0, [])
  {
    FlushAllKeepsInv(f);
    var g := FlushAll(f).0;
    TakeKeepsInv(g);
  }

  lemma TakeKeepsInv(g: File)
    requires Inv(g, [])
    ensures Inv(g.(w := Take(g.w)), [])
  {
    var h := g.(w := Take(g.w));
    assert h.w.reported + h.w.written == g.w.reported + g.w.written;
    SameRecordKeepsInv(g, h, []);
  }

  /** Inv looks at neither the file's content nor the buffers paid back. */
  lemma SameRecordKeepsInv(f: File, g: File, hand: seq<BufferedArticle>)
    requires Inv(f, hand) && g.buf == f.buf
    requires g.w.seenDone == f.w.seenDone && g.w.seenFailed == f.w.seenFailed
    requires g.w.acceptedAt == f.w.acceptedAt && g.w.partsWritten == f.w.partsWritten
    requires g.w.noted == f.w.noted && g.w.rolled == f.w.rolled
    requires ClaimsArePending(g.w)
    ensures Inv(g, hand)
  {
    forall a ensures InFlight(g, hand, a) <==> InFlight(f, hand, a) {
    }
    forall id | Flying(f, hand, id) ensures Flying(g, hand, id) {
      var a :| InFlight(f, hand, a) && a.id == id;
      assert InFlight(g, hand, a);
    }
    forall o ensures SettledAt(g.w, o) <==> SettledAt(f.w, o) {
    }
    forall id | Landed(f.w, id) ensures Landed(g.w, id) {
      var o :| SettledAt(f.w, o) && f.w.acceptedAt[o].id == id;
      assert SettledAt(g.w, o);
    }
  }

  lemma WriteRunKeepsInv(f: File, hand: seq<BufferedArticle>, run: FlushRun)
    requires Inv(f, hand) && run.parts == PartsOf(hand)
    ensures Inv(WriteRun(f, run).0, [])
  {
    var g := f.(w := f.w.(handle := WriteAt(f.w.handle, run.data, run.offset).0));
    SameRecordKeepsInv(f, g, hand);
    NoteAllKeepsInv(g, hand);
    FailAllKeepsInv(g, hand);
  }

  lemma FlushContiguousKeepsInv(f: File)
    requires Inv(f, [])
    ensures Inv(FlushContiguous(f).0, [])
  {
    if f.buf.Some? && BuildRun(f.buf.value, CONTIGUOUS_RUN_SIZE).0.Some? {
      var fb := f.buf.value;
      var hand := Contiguous(fb.articles, fb.writeCursor);
      RunTaken(fb, CONTIGUOUS_RUN_SIZE);
      RunKeepsAccount(fb, CONTIGUOUS_RUN_SIZE);
      var (r, fb') := BuildRun(fb, CONTIGUOUS_RUN_SIZE);
      RunHandOver(f, f.(buf := Some(fb'), freed := f.freed + LoansOf(hand)), hand, r.value);
    }
  }

  lemma RunHandOver(f: File, g: File, hand: seq<BufferedArticle>, run: FlushRun)
    requires Inv(f, []) && f.buf.Some? && g.buf.Some? && g.w == f.w
    requires Holds(f.Articles(), hand) && DistinctOffsets(hand) && run.parts == PartsOf(hand)
    requires g.buf.value.articles == f.Articles() - Offsets(hand) && Accounted(g.buf.value)
    ensures Inv(WriteRun(g, run).0, [])
  {
    HandOverKeepsInv(f, g, hand);
    WriteRunKeepsInv(g, hand, run);
  }

  // ----- accepting an article

  /** An article has been admitted and its bytes are about to be placed: Inv, but for that article. */
  ghost predicate InvBut(f: File, id: int) {
    && (f.buf.Some? ==> Accounted(f.buf.value))
    && Owned(f, []) && OneCopy(f, []) && LandsOnce(f, []) && PartsCounted(f.w)
    && id in f.w.seenDone && !Landed(f.w, id) && !Flying(f, [], id)
    && (forall i | i in f.w.seenDone && i !in f.w.seenFailed && i != id :: Landed(f.w, i) || Flying(f, [], i))
    && ClaimsAreSettled(f.w) && ClaimsArePending(f.w)
  }

  lemma FewerFly(f: File, g: File)
    requires Owned(f, []) && OneCopy(f, []) && LandsOnce(f, [])
    requires g.w.acceptedAt == f.w.acceptedAt && f.w.seenDone <= g.w.seenDone
    requires forall a | InFlight(g, [], a) :: InFlight(f, [], a)
    ensures Owned(g, []) && OneCopy(g, []) && LandsOnce(g, [])
  {
  }

  lemma AdmitKeepsInvBut(f: File, w: Writer, id: int)
    requires Inv(f, []) && id !in f.w.seenDone
    requires w == (if id in f.w.seenFailed then AdmitRetryOfFailed(f.w, id) else AdmitAccepted(f.w, id))
    ensures InvBut(f.(w := w), id)
  {
    var g := f.(w := w);
    assert g.w.seenDone + g.w.seenFailed == f.w.seenDone + f.w.seenFailed + {id};
    FewerFly(f, g);
    assert !Landed(f.w, id) && !Flying(f, [], id);
    NotThere(f, g, id);
    forall i | i in g.w.seenDone && i !in g.w.seenFailed && i != id
      ensures Landed(g.w, i) || Flying(g, [], i)
    {
      StillThere(f, g, i);
    }
    forall o ensures SettledAt(f.w, o) <==> SettledAt(g.w, o) {
    }
    SameClaims(f.w, g.w);
  }

  /** A refused article keeps its part and is resolved as failed. */
  lemma RejectKeepsInv(f: File, g: File, id: int)
    requires InvBut(f, id)
    requires g.buf == f.buf
    requires g.w == FailPermanent(f.w, id).(postAnomalyReported := g.w.postAnomalyReported)
    ensures Inv(g, [])
  {
    assert g.w.seenDone + g.w.seenFailed == f.w.seenDone + f.w.seenFailed;
    forall a | InFlight(g, [], a) ensures InFlight(f, [], a) && a.id != id {
      assert InFlight(f, [], a);
    }
    forall o | SettledAt(g.w, o) ensures SettledAt(f.w, o) && g.w.acceptedAt[o].id != id {
      assert SettledAt(f.w, o);
    }
    forall i | i in g.w.seenDone && i !in g.w.seenFailed
      ensures Landed(g.w, i) || Flying(g, [], i)
    {
      StillThere(f, g, i);
    }
    forall o ensures SettledAt(f.w, o) <==> SettledAt(g.w, o) {
    }
    SameClaims(f.w, g.w);
  }

  /** The incumbent loses its bytes and is resolved as failed, keeping the file's part total. */
  lemma DisplaceKeepsInvBut(f: File, off: int, id: int)
    requires InvBut(f, id) && off in f.w.acceptedAt && f.w.acceptedAt[off].id != id
    ensures InvBut(Displace(f, off, id), id)
    ensures off !in Displace(f, off, id).Articles()
  {
    var g := Displace(f, off, id);
    if f.buf.Some? { DropKeepsAccount(f.buf.value, off); }
    DisplacedStaysCounted(f.w, f.w.acceptedAt[off].id);
    forall a ensures InFlight(g, [], a) <==> InFlight(f, [], a) && a.offset != off {
    }
    FewerFly(f, g);
    NotThere(f, g, id);
    forall i | i in g.w.seenDone && i !in g.w.seenFailed && i != id
      ensures Landed(g.w, i) || Flying(g, [], i)
    {
      LoserWasOwner(f, off, i);
      StillThere(f, g, i);
    }
    forall o ensures SettledAt(f.w, o) <==> SettledAt(g.w, o) {
    }
    SameClaims(f.w, g.w);
  }

  lemma NotThere(f: File, g: File, id: int)
    requires !Landed(f.w, id) && !Flying(f, [], id)
    requires g.w.acceptedAt == f.w.acceptedAt
    requires forall a | InFlight(g, [], a) :: InFlight(f, [], a)
    ensures !Landed(g.w, id) && !Flying(g, [], id)
  {
  }

  lemma LoserWasOwner(f: File, off: int, i: int)
    requires Owned(f, []) && off in f.w.acceptedAt && i != f.w.acceptedAt[off].id
    ensures forall a | InFlight(f, [], a) && a.id == i :: a.offset != off
  {
  }

  lemma DisplacedStaysCounted(w: Writer, loser: int)
    requires PartsCounted(w)
    ensures PartsCounted(AdmitPermanentFailure(w, loser).0)
  {
    var all := w.seenDone + w.seenFailed;
    assert w.seenDone + (w.seenFailed + {loser}) == all + {loser};
    if loser in all { assert all + {loser} == all; }
  }

  lemma OwnKeepsInvBut(f: File, off: int, id: int)
    requires InvBut(f, id) && !SettledAt(f.w, off) && off !in f.Articles()
    ensures InvBut(Own(f, off, id), id)
  {
    var g := Own(f, off, id);
    forall a ensures InFlight(g, [], a) <==> InFlight(f, [], a) {
    }
    forall o ensures SettledAt(g.w, o) <==> SettledAt(f.w, o) {
    }
    forall i | i in g.w.seenDone && i !in g.w.seenFailed && i != id
      ensures Landed(g.w, i) || Flying(g, [], i)
    {
      StillThere(f, g, i);
    }
    forall o ensures SettledAt(f.w, o) <==> SettledAt(g.w, o) {
    }
    SameClaims(f.w, g.w);
  }

  /** An offset owned by the arriving article itself is neither settled nor occupied. */
  lemma OwnOffsetIsFree(f: File, off: int, id: int)
    requires InvBut(f, id) && off in f.w.acceptedAt && f.w.acceptedAt[off].id == id
    ensures !f.w.acceptedAt[off].written && off !in f.Articles()
  {
  }

  lemma ClaimKeepsInvBut(f: File, off: int, id: int)
    requires InvBut(f, id) && !OffsetSettledBy(f.w, off, id)
    ensures InvBut(Claim(f, off, id), id)
    ensures off !in Claim(f, off, id).Articles()
    ensures off in Claim(f, off, id).w.acceptedAt
    ensures Claim(f, off, id).w.acceptedAt[off] == OffsetOwner(id, false)
  {
    if off !in f.w.acceptedAt {
      if off in f.Articles() {
        assert InFlight(f, [], f.Articles()[off]);
        assert false;
      }
      OwnKeepsInvBut(f, off, id);
    } else if f.w.acceptedAt[off].id == id {
      OwnOffsetIsFree(f, off, id);
    } else {
      DisplaceKeepsInvBut(f, off, id);
      OwnKeepsInvBut(Displace(f, off, id), off, id);
    }
  }

  /** Once the offset is claimed, the arriving bytes are the hand. */
  lemma HoldArrival(g: File, a: BufferedArticle)
    requires InvBut(g, a.id) && a.offset !in g.Articles()
    requires a.offset in g.w.acceptedAt && g.w.acceptedAt[a.offset] == OffsetOwner(a.id, false)
    ensures Inv(g, [a])
  {
  }

  lemma BufferKeepsInv(g: File, h: File, a: BufferedArticle)
    requires Inv(g, [a]) && a.data.Len() > 0
    requires h.w == g.w && h.buf == Some(PutArticle(g.Buffer(), a))
    ensures Inv(h, [])
  {
    assert [a][0].offset !in g.Articles();
    if g.buf.None? {
      assert Sizes(map[]) == map[];
    }
    PutKeepsAccount(g.Buffer(), a);
    forall b ensures InFlight(h, [], b) <==> InFlight(g, [a], b) {
      BufferSameFlight(g, h, a, b);
    }
    SameFlightKeepsInv(g, [a], h, []);
  }

  lemma BufferSameFlight(g: File, h: File, a: BufferedArticle, b: BufferedArticle)
    requires a.offset !in g.Articles() && h.buf == Some(PutArticle(g.Buffer(), a))
    ensures InFlight(h, [], b) <==> InFlight(g, [a], b)
  {
  }

  lemma AcceptKeepsInv(f: File, limit: int, a: BufferedArticle)
    requires InvBut(f, a.id) && !OffsetSettledBy(f.w, a.offset, a.id)
    ensures Inv(Accept(f, limit, a).0, [])
  {
    var g := Claim(f, a.offset, a.id);
    ClaimKeepsInvBut(f, a.offset, a.id);
    HoldArrival(g, a);
    if limit > 0 && a.data.Len() > 0 {
      var h := g.(buf := Some(PutArticle(g.Buffer(), a)), freed := g.freed + LoanAt(g.Articles(), a.offset));
      BufferKeepsInv(g, h, a);
      FlushContiguousKeepsInv(h);
    } else {
      WriteOneKeepsInv(g, [a]);
      assert [a][1..] == [];
    }
  }

  lemma AcceptArticleKeepsInv(f: File, limit: int, info: FileInfo, a: BufferedArticle)
    requires InvBut(f, a.id)
    ensures Inv(AcceptArticle(f, limit, info, a).0, [])
  {
    if OffsetOutOfRange(info, a.offset, a.data.Len()) || OffsetSettledBy(f.w, a.offset, a.id) {
      RejectKeepsInv(f, AcceptArticle(f, limit, info, a).0, a.id);
    } else {
      AcceptKeepsInv(f, limit, a);
    }
  }

  lemma HandleSuccessKeepsInv(f: File, limit: int, info: FileInfo, a: BufferedArticle)
    requires Inv(f, [])
    ensures Inv(HandleSuccess(f, limit, info, a).0, [])
  {
    if a.id in f.w.seenDone {
      SameRecordKeepsInv(f, HandleSuccess(f, limit, info, a).0, []);
    } else {
      var w := if a.id in f.w.seenFailed then AdmitRetryOfFailed(f.w, a.id) else AdmitAccepted(f.w, a.id);
      AdmitKeepsInvBut(f, w, a.id);
      AcceptArticleKeepsInv(f.(w := w), limit, info, a);
    }
  }

  lemma PermanentFailureKeepsInv(f: File, id: int)
    requires Inv(f, [])
    ensures Inv(f.(w := AdmitPermanentFailure(f.w, id).0), [])
  {
    var g := f.(w := AdmitPermanentFailure(f.w, id).0);
    DisplacedStaysCounted(f.w, id);
    FewerFly(f, g);
    forall i | i in g.w.seenDone && i !in g.w.seenFailed
      ensures Landed(g.w, i) || Flying(g, [], i)
    {
      StillThere(f, g, i);
    }
    forall o ensures SettledAt(f.w, o) <==> SettledAt(g.w, o) {
    }
    SameClaims(f.w, g.w);
  }

  lemma StepKeepsInv(f: File, limit: int, info: FileInfo, op: FileOp)
    requires Inv(f, [])
    ensures Inv(Step(f, limit, info, op), [])
  {
    match op
    case Arrive(a) => HandleSuccessKeepsInv(f, limit, info, a);
    case ArriveFailed(id) => PermanentFailureKeepsInv(f, id);
    case PressureFlush => FlushAllKeepsInv(f);
    case DrainFile => DrainKeepsInv(f);
    case ConfirmFile =>
      assert [] + f.w.written == f.w.written;
      assert (f.w.reported + f.w.written)[|f.w.reported|..] == f.w.written;
      SameRecordKeepsInv(f, Confirm(f), []);
    case TruncateFile(bound) => SameRecordKeepsInv(f, Truncate(f, bound), []);
    case HandBack => SameRecordKeepsInv(f, TakeFaulted(f), []);
  }

  lemma {:induction false} RunKeepsInv(d: Disk, limit: int, info: FileInfo, ops: seq<FileOp>)
    ensures Inv(Run(NewFile(d), limit, info, ops), [])
    decreases |ops|
  {
    if ops == [] {
    } else {
      RunKeepsInv(d, limit, info, ops[..|ops| - 1]);
      StepKeepsInv(Run(NewFile(d), limit, info, ops[..|ops| - 1]), limit, info, ops[|ops| - 1]);
    }
  }

  /**
   * Over every run: an article about to be buffered finds nothing buffered at its offset, so no insertion
   * ever supersedes an older copy or pays its loan back.
   */
  lemma BufferNeverReplaces(d: Disk, limit: int, info: FileInfo, ops: seq<FileOp>, a: BufferedArticle)
    requires var f := Run(NewFile(d), limit, info, ops);
             a.id !in f.w.seenDone && !OffsetSettledBy(f.w, a.offset, a.id)
    ensures var f := Run(NewFile(d), limit, info, ops);
            var w := if a.id in f.w.seenFailed then AdmitRetryOfFailed(f.w, a.id) else AdmitAccepted(f.w, a.id);
            a.offset !in Claim(f.(w := w), a.offset, a.id).Articles()
  {
    var f := Run(NewFile(d), limit, info, ops);
    var w := if a.id in f.w.seenFailed then AdmitRetryOfFailed(f.w, a.id) else AdmitAccepted(f.w, a.id);
    RunKeepsInv(d, limit, info, ops);
    AdmitKeepsInvBut(f, w, a.id);
    ClaimKeepsInvBut(f.(w := w), a.offset, a.id);
  }

  /** A drain leaves nothing buffered, fault or no fault. */
  lemma DrainEmptiesTheBuffer(f: File)
    ensures Drain(f).0.Articles() == map[]
    ensures f.buf.Some? ==> Drain(f).0.buf == Some(Drained(f.buf.value))
  {
    if f.buf.Some? {
      WriteInOrderKeepsBuffer(f.(buf := Some(Drained(f.buf.value))), Sorted(f.Articles()));
    }
  }

  lemma {:induction false} WriteInOrderKeepsBuffer(f: File, arts: seq<BufferedArticle>)
    ensures WriteInOrder(f, arts).0.buf == f.buf
    decreases |arts|
  {
    if arts != [] {
      var (g, ok) := WriteOne(f, arts[0]);
      if ok {
        WriteInOrderKeepsBuffer(g, arts[1..]);
      } else {
        AbandonKeepsBuffer(g, arts[1..]);
      }
    }
  }

  lemma {:induction false} AbandonKeepsBuffer(f: File, rest: seq<BufferedArticle>)
    ensures Abandon(f, rest).buf == f.buf
    decreases |rest|
  {
    if rest != [] {
      AbandonKeepsBuffer(f.(w := Fail(f.w, rest[0].id), freed := f.freed + rest[0].data.Loan()), rest[1..]);
    }
  }

  lemma NobodyFlies(g: File, id: int)
    requires g.Articles() == map[]
    ensures !Flying(g, [], id)
  {
  }
}
