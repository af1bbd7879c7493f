/** What, once decided about an article or an offset, stays decided. */
module Settlement {
  import opened Types
  import opened FileBuffer
  import opened Writing
  import opened WriterInvariant
  import opened WriterRuns

  /** Writing admits nobody and unsettles nothing. */
  ghost predicate Onward(w: Writer, v: Writer) {
    && v.seenDone <= w.seenDone && v.cut == w.cut
    && (forall o | SettledAt(w, o) :: SettledAt(v, o) && v.acceptedAt[o].id == w.acceptedAt[o].id)
  }

  ghost predicate SameOwners(w: Writer, v: Writer) {
    && v.acceptedAt.Keys == w.acceptedAt.Keys
    && (forall o | o in w.acceptedAt :: v.acceptedAt[o].id == w.acceptedAt[o].id)
  }

  lemma {:induction false} NoteAllOnward(w: Writer, parts: seq<RunPart>)
    ensures Onward(w, NoteAll(w, parts)) && SameOwners(w, NoteAll(w, parts))
    decreases |parts|
  {
    if parts != [] {
      NoteAllOnward(NoteWritten(w, parts[0]), parts[1..]);
    }
  }

  lemma {:induction false} FailAllOnward(w: Writer, parts: seq<RunPart>)
    ensures Onward(w, FailAll(w, parts)) && SameOwners(w, FailAll(w, parts))
    decreases |parts|
  {
    if parts != [] {
      FailAllOnward(Fail(w, parts[0].id), parts[1..]);
    }
  }

  lemma {:induction false} AbandonOnward(f: File, rest: seq<BufferedArticle>)
    ensures Onward(f.w, Abandon(f, rest).w) && SameOwners(f.w, Abandon(f, rest).w)
    decreases |rest|
  {
    if rest != [] {
      AbandonOnward(f.(w := Fail(f.w, rest[0].id), freed := f.freed + rest[0].data.Loan()), rest[1..]);
    }
  }

  lemma {:induction false} WriteInOrderOnward(f: File, arts: seq<BufferedArticle>)
    ensures Onward(f.w, WriteInOrder(f, arts).0.w) && SameOwners(f.w, WriteInOrder(f, arts).0.w)
    decreases |arts|
  {
    if arts != [] {
      var (g, ok) := WriteOne(f, arts[0]);
      if ok {
        WriteInOrderOnward(g, arts[1..]);
      } else {
        AbandonOnward(g, arts[1..]);
      }
    }
  }

  lemma FlushAllOnward(f: File)
    ensures Onward(f.w, FlushAll(f).0.w) && SameOwners(f.w, FlushAll(f).0.w)
  {
    if f.buf.Some? {
      WriteInOrderOnward(f.(buf := Some(Drained(f.buf.value))), Sorted(f.Articles()));
    }
  }

  lemma FlushContiguousOnward(f: File)
    ensures Onward(f.w, FlushContiguous(f).0.w) && SameOwners(f.w, FlushContiguous(f).0.w)
  {
    if f.buf.Some? && BuildRun(f.buf.value, CONTIGUOUS_RUN_SIZE).0.Some? {
      var run := BuildRun(f.buf.value, CONTIGUOUS_RUN_SIZE).0.value;
      var w := f.w.(handle := WriteAt(f.w.handle, run.data, run.offset).0);
      NoteAllOnward(w, run.parts);
      FailAllOnward(w, run.parts);
    }
  }

  /** Nobody comes to own an offset but the arriving article, and it only its own. */
  ghost predicate OwnersJoined(w: Writer, v: Writer, a: BufferedArticle) {
    forall o | o in v.acceptedAt ::
      (o in w.acceptedAt && v.acceptedAt[o].id == w.acceptedAt[o].id) || (o == a.offset && v.acceptedAt[o].id == a.id)
  }

  lemma ClaimOnward(f: File, a: BufferedArticle)
    requires !OffsetSettledBy(f.w, a.offset, a.id)
    ensures Onward(f.w, Claim(f, a.offset, a.id).w)
    ensures OwnersJoined(f.w, Claim(f, a.offset, a.id).w, a)
  {
  }

  lemma WriteOneOnward(f: File, a: BufferedArticle)
    ensures Onward(f.w, WriteOne(f, a).0.w) && SameOwners(f.w, WriteOne(f, a).0.w)
  {
  }

  lemma JoinedThenOnward(w: Writer, v: Writer, u: Writer, a: BufferedArticle)
    requires Onward(w, v) && OwnersJoined(w, v, a) && Onward(v, u) && SameOwners(v, u)
    ensures Onward(w, u) && OwnersJoined(w, u, a)
  {
  }

  lemma AcceptOnward(f: File, limit: int, a: BufferedArticle)
    requires !OffsetSettledBy(f.w, a.offset, a.id)
    ensures Onward(f.w, Accept(f, limit, a).0.w)
    ensures OwnersJoined(f.w, Accept(f, limit, a).0.w, a)
  {
    var g := Claim(f, a.offset, a.id);
    ClaimOnward(f, a);
    if limit > 0 && a.data.Len() > 0 {
      FlushContiguousOnward(
        g.(buf := Some(PutArticle(g.Buffer(), a)), freed := g.freed + LoanAt(g.Articles(), a.offset)));
    } else {
      WriteOneOnward(g, a);
    }
    JoinedThenOnward(f.w, g.w, Accept(f, limit, a).0.w, a);
  }

  lemma AcceptArticleOnward(f: File, limit: int, info: FileInfo, a: BufferedArticle)
    ensures Onward(f.w, AcceptArticle(f, limit, info, a).0.w)
    ensures OwnersJoined(f.w, AcceptArticle(f, limit, info, a).0.w, a)
  {
    if !OffsetOutOfRange(info, a.offset, a.data.Len()) && !OffsetSettledBy(f.w, a.offset, a.id) {
      AcceptOnward(f, limit, a);
    }
  }

  lemma StepKeepsSettled(f: File, limit: int, info: FileInfo, op: FileOp, o: int)
    requires SettledAt(f.w, o)
    ensures var g := Step(f, limit, info, op);
            SettledAt(g.w, o) && g.w.acceptedAt[o].id == f.w.acceptedAt[o].id
  {
    match op
    case Arrive(a) =>
      if a.id !in f.w.seenDone {
        var w := if a.id in f.w.seenFailed then AdmitRetryOfFailed(f.w, a.id) else AdmitAccepted(f.w, a.id);
        assert SettledAt(w, o);
        AcceptArticleOnward(f.(w := w), limit, info, a);
      }
    case PressureFlush => FlushAllOnward(f);
    case DrainFile => FlushAllOnward(f);
    case _ =>
  }

  /** Once an offset's owner has been noted written, the owner never changes. */
  lemma {:induction false} SettledOffsetsArePermanent(f: File, limit: int, info: FileInfo, ops: seq<FileOp>, o: int)
    requires SettledAt(f.w, o)
    ensures var g := Run(f, limit, info, ops);
            SettledAt(g.w, o) && g.w.acceptedAt[o].id == f.w.acceptedAt[o].id
    decreases |ops|
  {
    if ops != [] {
      var most := ops[..|ops| - 1];
      SettledOffsetsArePermanent(f, limit, info, most, o);
      StepKeepsSettled(Run(f, limit, info, most), limit, info, ops[|ops| - 1], o);
    }
  }

  // ----- claims cut into

  lemma StepKeepsCut(f: File, limit: int, info: FileInfo, op: FileOp)
    requires !op.TruncateFile?
    ensures Step(f, limit, info, op).w.cut == f.w.cut
  {
    match op
    case Arrive(a) =>
      if a.id !in f.w.seenDone {
        var w := if a.id in f.w.seenFailed then AdmitRetryOfFailed(f.w, a.id) else AdmitAccepted(f.w, a.id);
        AcceptArticleOnward(f.(w := w), limit, info, a);
      }
    case PressureFlush => FlushAllOnward(f);
    case DrainFile => FlushAllOnward(f);
    case _ =>
  }

  /** Each truncation of the run spares every claim made before it. */
  ghost predicate TruncationsSpare(d: Disk, limit: int, info: FileInfo, ops: seq<FileOp>)
    decreases |ops|
  {
    ops == [] ||
    var most, op := ops[..|ops| - 1], ops[|ops| - 1];
    && TruncationsSpare(d, limit, info, most)
    && (op.TruncateFile? ==> !Cuts(Run(NewFile(d), limit, info, most).w, op.bound))
  }

  /** A claim is cut into exactly by a truncation that does not spare it. */
  lemma {:induction false} CutExactly(d: Disk, limit: int, info: FileInfo, ops: seq<FileOp>)
    ensures TruncationsSpare(d, limit, info, ops) <==> !Run(NewFile(d), limit, info, ops).w.cut
    decreases |ops|
  {
    if ops != [] {
      var most, op := ops[..|ops| - 1], ops[|ops| - 1];
      CutExactly(d, limit, info, most);
      if !op.TruncateFile? {
        StepKeepsCut(Run(NewFile(d), limit, info, most), limit, info, op);
      }
    }
  }

  // ----- displaced articles

  /** Recorded as accepted, with no bytes anywhere: such an article is never written. */
  ghost predicate Dead(f: File, hand: seq<BufferedArticle>, id: int) {
    id in f.w.seenDone && !Landed(f.w, id) && !Flying(f, hand, id)
  }

  // Every article always arrives with one offset.
  type Home = int -> int

  ghost predicate AtHome(f: File, home: Home) {
    forall o | o in f.w.acceptedAt :: home(f.w.acceptedAt[o].id) == o
  }

  /** The owner of an unsettled offset holds bytes only there, so taking the offset leaves it none. */
  lemma DisplacedIsClean(f: File, off: int, id: int, home: Home)
    requires InvBut(f, id) && AtHome(f, home)
    requires off in f.w.acceptedAt && f.w.acceptedAt[off].id != id && !OffsetSettledBy(f.w, off, id)
    ensures var loser := f.w.acceptedAt[off].id;
            && !Landed(f.w, loser)
            && (loser in f.w.seenDone ==> Dead(Displace(f, off, id), [], loser))
  {
  }

  lemma StepKeepsAtHome(f: File, limit: int, info: FileInfo, op: FileOp, home: Home)
    requires AtHome(f, home)
    requires op.Arrive? ==> home(op.a.id) == op.a.offset
    ensures AtHome(Step(f, limit, info, op), home)
  {
    match op
    case Arrive(a) =>
      if a.id !in f.w.seenDone {
        var w := if a.id in f.w.seenFailed then AdmitRetryOfFailed(f.w, a.id) else AdmitAccepted(f.w, a.id);
        AcceptArticleOnward(f.(w := w), limit, info, a);
      }
    case PressureFlush => FlushAllOnward(f);
    case DrainFile => FlushAllOnward(f);
    case _ =>
  }

  lemma {:induction false} RunKeepsAtHome(d: Disk, limit: int, info: FileInfo, ops: seq<FileOp>, home: Home)
    requires forall i | 0 <= i < |ops| && ops[i].Arrive? :: home(ops[i].a.id) == ops[i].a.offset
    ensures AtHome(Run(NewFile(d), limit, info, ops), home)
    decreases |ops|
  {
    if ops != [] {
      var most := ops[..|ops| - 1];
      RunKeepsAtHome(d, limit, info, most, home);
      StepKeepsAtHome(Run(NewFile(d), limit, info, most), limit, info, ops[|ops| - 1], home);
    }
  }

  lemma LandedOneKeepsDead(f: File, g: File, hand: seq<BufferedArticle>, d: Disk, id: int)
    requires Inv(f, hand) && hand != [] && Dead(f, hand, id) && g.buf == f.buf
    requires g.w == NoteWritten(f.w.(handle := d), PartOf(hand[0])) || g.w == Fail(f.w.(handle := d), hand[0].id)
    ensures Dead(g, hand[1..], id)
  {
  }

  lemma {:induction false} AbandonKeepsDead(f: File, rest: seq<BufferedArticle>, id: int)
    requires Inv(f, rest) && Dead(f, rest, id)
    ensures Dead(Abandon(f, rest), [], id)
    decreases |rest|
  {
    if rest == [] {
    } else {
      var g := f.(w := Fail(f.w, rest[0].id), freed := f.freed + rest[0].data.Loan());
      FailKeepsInv(f, g, rest, f.w.handle);
      LandedOneKeepsDead(f, g, rest, f.w.handle, id);
      AbandonKeepsDead(g, rest[1..], id);
    }
  }

  lemma {:induction false} WriteInOrderKeepsDead(f: File, arts: seq<BufferedArticle>, id: int)
    requires Inv(f, arts) && Dead(f, arts, id)
    ensures Dead(WriteInOrder(f, arts).0, [], id)
    decreases |arts|
  {
    if arts == [] {
    } else {
      var (g, ok) := WriteOne(f, arts[0]);
      WriteOneKeepsInv(f, arts);
      LandedOneKeepsDead(f, g, arts, g.w.handle, id);
      if ok {
        WriteInOrderKeepsDead(g, arts[1..], id);
      } else {
        AbandonKeepsDead(g, arts[1..], id);
      }
    }
  }

  lemma {:induction false} NoteAllKeepsDead(f: File, hand: seq<BufferedArticle>, id: int)
    requires Inv(f, hand) && Dead(f, hand, id)
    ensures Dead(f.(w := NoteAll(f.w, PartsOf(hand))), [], id)
    decreases |hand|
  {
    if hand == [] {
    } else {
      var g := f.(w := NoteWritten(f.w, PartOf(hand[0])));
      NoteKeepsInv(f, g, hand, f.w.handle);
      LandedOneKeepsDead(f, g, hand, f.w.handle, id);
      PartsTail(hand);
      NoteAllKeepsDead(g, hand[1..], id);
    }
  }

  lemma {:induction false} FailAllKeepsDead(f: File, hand: seq<BufferedArticle>, id: int)
    requires Inv(f, hand) && Dead(f, hand, id)
    ensures Dead(f.(w := FailAll(f.w, PartsOf(hand))), [], id)
    decreases |hand|
  {
    if hand == [] {
    } else {
      var g := f.(w := Fail(f.w, hand[0].id));
      FailKeepsInv(f, g, hand, f.w.handle);
      LandedOneKeepsDead(f, g, hand, f.w.handle, id);
      PartsTail(hand);
      FailAllKeepsDead(g, hand[1..], id);
    }
  }

  /** Bytes that only moved, or went away, cannot revive anyone. */
  lemma FewerFlyKeepsDead(f: File, from: seq<BufferedArticle>, g: File, to: seq<BufferedArticle>, id: int)
    requires Dead(f, from, id) && id in g.w.seenDone
    requires forall o | SettledAt(g.w, o) :: SettledAt(f.w, o) && g.w.acceptedAt[o].id == f.w.acceptedAt[o].id
    requires forall a | InFlight(g, to, a) && a.id == id :: InFlight(f, from, a)
    ensures Dead(g, to, id)
  {
  }

  lemma FlushAllKeepsDead(f: File, id: int)
    requires Inv(f, []) && Dead(f, [], id)
    ensures Dead(FlushAll(f).0, [], id)
  {
    if f.buf.Some? {
      var arts := Sorted(f.Articles());
      var g := f.(buf := Some(Drained(f.buf.value)));
      SortedIsSorted(f.Articles());
      DrainKeepsAccount(f.buf.value);
      AllTaken(f.Articles(), arts);
      TakeOutKeepsDead(f, g, arts, id);
      WriteInOrderKeepsDead(g, arts, id);
    }
  }

  lemma TakeOutKeepsDead(f: File, g: File, hand: seq<BufferedArticle>, id: int)
    requires Inv(f, []) && Dead(f, [], id) && f.buf.Some? && g.buf.Some? && g.w == f.w
    requires Holds(f.Articles(), hand) && DistinctOffsets(hand)
    requires g.buf.value.articles == f.Articles() - Offsets(hand) && Accounted(g.buf.value)
    ensures Inv(g, hand) && Dead(g, hand, id)
  {
    HandOverKeepsInv(f, g, hand);
    forall a | InFlight(g, hand, a) ensures InFlight(f, [], a) {
      HandOverSameFlight(f, g, hand, a);
    }
    FewerFlyKeepsDead(f, [], g, hand, id);
  }

  lemma FlushContiguousKeepsDead(f: File, id: int)
    requires Inv(f, []) && Dead(f, [], id)
    ensures Dead(FlushContiguous(f).0, [], id)
  {
    if f.buf.Some? && BuildRun(f.buf.value, CONTIGUOUS_RUN_SIZE).0.Some? {
      var fb := f.buf.value;
      var hand := Contiguous(fb.articles, fb.writeCursor);
      RunTaken(fb, CONTIGUOUS_RUN_SIZE);
      RunKeepsAccount(fb, CONTIGUOUS_RUN_SIZE);
      var (r, fb') := BuildRun(fb, CONTIGUOUS_RUN_SIZE);
      var g := f.(buf := Some(fb'), freed := f.freed + LoansOf(hand));
      TakeOutKeepsDead(f, g, hand, id);
      WriteRunKeepsDead(g, hand, r.value, id);
    }
  }

  lemma WriteRunKeepsDead(f: File, hand: seq<BufferedArticle>, run: FlushRun, id: int)
    requires Inv(f, hand) && Dead(f, hand, id) && run.parts == PartsOf(hand)
    ensures Dead(WriteRun(f, run).0, [], id)
  {
    var g := f.(w := f.w.(handle := WriteAt(f.w.handle, run.data, run.offset).0));
    SameRecordKeepsInv(f, g, hand);
    assert forall a :: InFlight(g, hand, a) <==> InFlight(f, hand, a);
    assert forall o :: SettledAt(g.w, o) <==> SettledAt(f.w, o);
    FewerFlyKeepsDead(f, hand, g, hand, id);
    NoteAllKeepsDead(g, hand, id);
    FailAllKeepsDead(g, hand, id);
  }

  lemma ClaimGroundsOrKeeps(f: File, a: BufferedArticle)
    ensures forall b | InFlight(Claim(f, a.offset, a.id), [a], b) && b.id != a.id :: InFlight(f, [], b)
  {
  }

  lemma AcceptKeepsDead(f: File, limit: int, a: BufferedArticle, id: int)
    requires InvBut(f, a.id) && !OffsetSettledBy(f.w, a.offset, a.id)
    requires Dead(f, [], id) && id != a.id
    ensures Dead(Accept(f, limit, a).0, [], id)
  {
    var g := Claim(f, a.offset, a.id);
    ClaimKeepsInvBut(f, a.offset, a.id);
    HoldArrival(g, a);
    assert forall o | SettledAt(g.w, o) :: SettledAt(f.w, o);
    ClaimGroundsOrKeeps(f, a);
    FewerFlyKeepsDead(f, [], g, [a], id);
    if limit > 0 && a.data.Len() > 0 {
      var h := g.(buf := Some(PutArticle(g.Buffer(), a)), freed := g.freed + LoanAt(g.Articles(), a.offset));
      BufferKeepsInv(g, h, a);
      forall b | InFlight(h, [], b) ensures InFlight(g, [a], b) {
        BufferSameFlight(g, h, a, b);
      }
      FewerFlyKeepsDead(g, [a], h, [], id);
      FlushContiguousKeepsDead(h, id);
    } else {
      LandedOneKeepsDead(g, WriteOne(g, a).0, [a], WriteOne(g, a).0.w.handle, id);
      assert [a][1..] == [];
    }
  }

  lemma HandleSuccessKeepsDead(f: File, limit: int, info: FileInfo, a: BufferedArticle, id: int)
    requires Inv(f, []) && Dead(f, [], id)
    ensures Dead(HandleSuccess(f, limit, info, a).0, [], id)
  {
    var g := HandleSuccess(f, limit, info, a).0;
    if a.id in f.w.seenDone {
      FewerFlyKeepsDead(f, [], g, [], id);
    } else {
      var w := if a.id in f.w.seenFailed then AdmitRetryOfFailed(f.w, a.id) else AdmitAccepted(f.w, a.id);
      AdmitKeepsInvBut(f, w, a.id);
      FewerFlyKeepsDead(f, [], f.(w := w), [], id);
      if OffsetOutOfRange(info, a.offset, a.data.Len()) || OffsetSettledBy(w, a.offset, a.id) {
        FewerFlyKeepsDead(f.(w := w), [], g, [], id);
      } else {
        AcceptKeepsDead(f.(w := w), limit, a, id);
      }
    }
  }

  lemma StepKeepsDead(f: File, limit: int, info: FileInfo, op: FileOp, id: int)
    requires Inv(f, []) && Dead(f, [], id)
    ensures Dead(Step(f, limit, info, op), [], id)
  {
    match op
    case Arrive(a) => HandleSuccessKeepsDead(f, limit, info, a, id);
    case PressureFlush => FlushAllKeepsDead(f, id);
    case DrainFile =>
      FlushAllKeepsDead(f, id);
      FewerFlyKeepsDead(FlushAll(f).0, [], Drain(f).0, [], id);
    case _ => FewerFlyKeepsDead(f, [], Step(f, limit, info, op), [], id);
  }

  /** A displaced article that was recorded as accepted is never written later, whatever arrives. */
  lemma {:induction false} DeadStaysDead(f: File, limit: int, info: FileInfo, ops: seq<FileOp>, id: int)
    requires Inv(f, []) && Dead(f, [], id)
    ensures Inv(Run(f, limit, info, ops), []) && Dead(Run(f, limit, info, ops), [], id)
    ensures !Landed(Run(f, limit, info, ops).w, id)
    decreases |ops|
  {
    if ops != [] {
      var most := ops[..|ops| - 1];
      DeadStaysDead(f, limit, info, most, id);
      StepKeepsInv(Run(f, limit, info, most), limit, info, ops[|ops| - 1]);
      StepKeepsDead(Run(f, limit, info, most), limit, info, ops[|ops| - 1], id);
    }
  }

  /** The arrival passes every check and finds its offset in the hands of another article that made no claim. */
  ghost predicate Displaces(f: File, info: FileInfo, a: BufferedArticle) {
    && a.id !in f.w.seenDone
    && !OffsetOutOfRange(info, a.offset, a.data.Len())
    && a.offset in f.w.acceptedAt && f.w.acceptedAt[a.offset].id != a.id && !f.w.acceptedAt[a.offset].written
  }

  lemma DisplacementKills(f: File, limit: int, info: FileInfo, a: BufferedArticle, home: Home)
    requires Inv(f, []) && AtHome(f, home) && Displaces(f, info, a)
    requires f.w.acceptedAt[a.offset].id in f.w.seenDone
    ensures Dead(HandleSuccess(f, limit, info, a).0, [], f.w.acceptedAt[a.offset].id)
  {
    var loser := f.w.acceptedAt[a.offset].id;
    var w := if a.id in f.w.seenFailed then AdmitRetryOfFailed(f.w, a.id) else AdmitAccepted(f.w, a.id);
    var g := f.(w := w);
    AdmitKeepsInvBut(f, w, a.id);
    DisplacedIsClean(g, a.offset, a.id, home);
    AcceptAfterDisplacement(g, limit, a, loser);
  }

  lemma AcceptAfterDisplacement(f: File, limit: int, a: BufferedArticle, loser: int)
    requires InvBut(f, a.id) && !OffsetSettledBy(f.w, a.offset, a.id)
    requires a.offset in f.w.acceptedAt && f.w.acceptedAt[a.offset].id == loser != a.id
    requires Dead(Displace(f, a.offset, a.id), [], loser)
    ensures Dead(Accept(f, limit, a).0, [], loser)
  {
    var g := Displace(f, a.offset, a.id);
    var h := Own(g, a.offset, a.id);
    DisplaceKeepsInvBut(f, a.offset, a.id);
    OwnKeepsInvBut(g, a.offset, a.id);
    assert forall b :: InFlight(h, [], b) <==> InFlight(g, [], b);
    assert forall o | SettledAt(h.w, o) :: SettledAt(g.w, o);
    FewerFlyKeepsDead(g, [], h, [], loser);
    AcceptKeepsDead(h, limit, a, loser);
    assert Accept(h, limit, a) == Accept(f, limit, a);
  }

  /**
   * Displacement is clean. When every article keeps to one offset, an accepted article pushed out of
   * its offset has never been written, and no continuation of the run ever claims it.
   */
  lemma DisplacedIsNeverWritten(d: Disk, limit: int, info: FileInfo, pre: seq<FileOp>, a: BufferedArticle,
                                post: seq<FileOp>, home: Home)
    requires forall i | 0 <= i < |pre| && pre[i].Arrive? :: home(pre[i].a.id) == pre[i].a.offset
    requires Displaces(Run(NewFile(d), limit, info, pre), info, a)
    ensures var f := Run(NewFile(d), limit, info, pre);
            var loser := f.w.acceptedAt[a.offset].id;
            loser in f.w.seenDone ==>
              var g := Run(Step(f, limit, info, Arrive(a)), limit, info, post);
              forall i | 0 <= i < |g.w.noted| :: g.w.noted[i].artIdx != loser
  {
    var f := Run(NewFile(d), limit, info, pre);
    var loser := f.w.acceptedAt[a.offset].id;
    if loser in f.w.seenDone {
      RunKeepsInv(d, limit, info, pre);
      RunKeepsAtHome(d, limit, info, pre, home);
      DisplacementKills(f, limit, info, a, home);
      HandleSuccessKeepsInv(f, limit, info, a);
      var h := Step(f, limit, info, Arrive(a));
      DeadStaysDead(h, limit, info, post, loser);
      NotLandedNotNoted(Run(h, limit, info, post), loser);
    }
  }

  lemma NotLandedNotNoted(g: File, id: int)
    requires Inv(g, []) && !Landed(g.w, id)
    ensures forall i | 0 <= i < |g.w.noted| :: g.w.noted[i].artIdx != id
  {
  }
}
