/** What becomes of an article that arrives at its file: turned away, refused, cached, or written. */
module Arrivals {
  import opened Types
  import opened FileBuffer
  import opened Writing
  import opened WriterInvariant
  import opened WriterRuns
  import opened DrainTruth
  import opened Loans
  import opened WriteBounds
  import opened Drains
  import opened Assembly
  import opened WorkerMoves
  import opened WorkerFiles
  import opened WorkerLedger
  import opened WorkerLife
  import opened Completion
  import opened Rejections

  // ----- what is turned away

  /** Another article has claimed to have written this offset. */
  ghost predicate HeldByAnother(w: Writer, off: int, id: int) {
    exists i :: 0 <= i < |w.noted| && w.noted[i].offset == off && w.noted[i].artIdx != id
  }

  /** The file has neither accepted the article, nor is it out of range, nor its offset written by another. */
  ghost predicate IsWelcome(w: Writer, info: FileInfo, a: BufferedArticle) {
    a.id !in w.seenDone && Within(info, a.offset, a.data.Len()) && !HeldByAnother(w, a.offset, a.id)
  }

  /** Not a byte has been written, claimed, cached or taken back. */
  ghost predicate SameBytes(f: File, g: File) {
    && g.w.handle == f.w.handle && g.buf == f.buf && g.w.noted == f.w.noted && g.w.rolled == f.w.rolled
    && g.w.acceptedAt == f.w.acceptedAt
  }

  /** Its buffer goes back, and unless it is a duplicate it counts as failed for good. */
  ghost predicate TurnsAway(f: File, g: File, a: BufferedArticle) {
    && SameBytes(f, g) && g.freed == f.freed + a.data.Loan() && g.w.seenDone == f.w.seenDone
    && g.w.seenFailed == f.w.seenFailed + if a.id in f.w.seenDone then {} else {a.id}
  }

  lemma RefusalLeavesNothing(f: File, w: Writer, limit: int, info: FileInfo, a: BufferedArticle)
    requires a.id !in f.w.seenDone
    requires w == if a.id in f.w.seenFailed then AdmitRetryOfFailed(f.w, a.id) else AdmitAccepted(f.w, a.id)
    requires OffsetOutOfRange(info, a.offset, a.data.Len()) || OffsetSettledBy(w, a.offset, a.id)
    ensures TurnsAway(f, AcceptArticle(f.(w := w), limit, info, a).0, a)
  {
    assert f.w.seenDone + {a.id} - {a.id} == f.w.seenDone;
  }

  /** A duplicate leaves its file as it was, and an article refused is failed for good: neither leaves a byte. */
  lemma UnwelcomeLeavesNothing(f: File, limit: int, info: FileInfo, a: BufferedArticle)
    requires Inv(f, []) && Representable(a) && !IsWelcome(f.w, info, a)
    ensures TurnsAway(f, HandleSuccess(f, limit, info, a).0, a)
  {
    if a.id !in f.w.seenDone {
      var w := if a.id in f.w.seenFailed then AdmitRetryOfFailed(f.w, a.id) else AdmitAccepted(f.w, a.id);
      RangeCheckIsExact(info, a);
      ClaimsTellWhoSettled(f.w, a.offset, a.id);
      RefusalLeavesNothing(f, w, limit, info, a);
    }
  }

  // ----- what is cached, and what is written

  /** The file's cached articles with this one among them, in the place of whatever was at its offset. */
  ghost function With(f: File, a: BufferedArticle): Articles {
    f.Articles()[a.offset := a]
  }

  /** How far the cached articles reach from the write cursor without a gap. */
  ghost function RunLength(m: Articles, cursor: int): nat {
    |BytesOf(Contiguous(m, cursor))|
  }

  /** The article is written on arrival: there is no cache, it has no bytes, or it makes a run of 512 KiB. */
  ghost predicate WritesAtOnce(f: File, limit: int, a: BufferedArticle) {
    limit <= 0 || a.data.Len() == 0 || RunLength(With(f, a), f.Buffer().writeCursor) >= 524288
  }

  /** Cached: nothing has been written, and the cache has the article and what it had before. */
  ghost predicate IsCached(f: File, g: File, a: BufferedArticle) {
    && g.w.handle == f.w.handle && g.w.noted == f.w.noted && a.id in g.w.seenDone
    && g.Articles() == With(f, a) && g.Buffer().writeCursor == f.Buffer().writeCursor
  }

  /** The range an arrival that is written at once writes: its own, or that of the run it completes. */
  ghost function WriteOf(f: File, limit: int, a: BufferedArticle): Extent {
    if limit <= 0 || a.data.Len() == 0 then Extent(a.offset, a.data.Len())
    else Extent(f.Buffer().writeCursor, RunLength(With(f, a), f.Buffer().writeCursor))
  }

  /** Written: one write was made, and the article is claimed and on the file, or the write failed and it is taken back. */
  ghost predicate IsWritten(f: File, limit: int, g: File, a: BufferedArticle) {
    && g.w.handle.env == f.w.handle.env && g.w.handle.log == f.w.handle.log + [WriteOf(f, limit, a)]
    && if f.w.handle.env(|f.w.handle.log|).Failed? then
         RolledSince(f.w, g.w, a.id) && a.id !in g.w.seenDone && g.w.noted == f.w.noted
       else
         ClaimedIn(g.w, a) && IsDown(g.w.handle.bytes, a) && a.id in g.w.seenDone
  }

  /** The run has left the cache, and nothing else has; the cursor is where it ended. */
  ghost predicate RunIsGone(f: File, g: File, a: BufferedArticle) {
    var run := Contiguous(With(f, a), f.Buffer().writeCursor);
    && g.Buffer().writeCursor == f.Buffer().writeCursor + |BytesOf(run)|
    && g.Articles() == With(f, a) - Offsets(run)
  }

  lemma BufferedIsWith(f: File, a: BufferedArticle)
    ensures Buffered(f, a).Articles() == With(f, a)
    ensures Buffered(f, a).Buffer().writeCursor == f.Buffer().writeCursor
    ensures Buffered(f, a).w.handle == f.w.handle && Buffered(f, a).w.noted == f.w.noted
    ensures Buffered(f, a).w.seenDone == f.w.seenDone && f.w.rolled <= Buffered(f, a).w.rolled
  {
  }

  lemma {:induction false} NoteAllClaims(w: Writer, arts: seq<BufferedArticle>, i: nat)
    requires i < |arts|
    ensures ClaimedIn(NoteAll(w, PartsOf(arts)), arts[i]) && w.noted <= NoteAll(w, PartsOf(arts)).noted
    decreases |arts|
  {
    var v := NoteWritten(w, PartOf(arts[0]));
    PartsTail(arts);
    if i > 0 {
      NoteAllClaims(v, arts[1..], i - 1);
    } else {
      assert v.noted[|w.noted|] == WrittenArticle(arts[0].id, arts[0].offset, arts[0].data.Len(), arts[0].crc32);
      NoteAllKeeps(v, PartsOf(arts[1..]));
    }
  }

  lemma {:induction false} NoteAllKeeps(w: Writer, parts: seq<RunPart>)
    ensures var v := NoteAll(w, parts); w.noted <= v.noted && v.rolled == w.rolled && v.seenDone == w.seenDone
    decreases |parts|
  {
    if parts != [] {
      NoteAllKeeps(NoteWritten(w, parts[0]), parts[1..]);
    }
  }

  lemma {:induction false} FailAllRolls(w: Writer, arts: seq<BufferedArticle>)
    ensures var v := FailAll(w, PartsOf(arts));
            && w.rolled <= v.rolled && v.noted == w.noted
            && forall i | 0 <= i < |arts| :: RolledSince(w, v, arts[i].id) && arts[i].id !in v.seenDone
    decreases |arts|
  {
    if arts != [] {
      var u := Fail(w, arts[0].id);
      var v := FailAll(w, PartsOf(arts));
      PartsTail(arts);
      FailAllRolls(u, arts[1..]);
      FailAllTakesBack(w, arts);
      forall i | 0 <= i < |arts| ensures RolledSince(w, v, arts[i].id) && arts[i].id !in v.seenDone {
        IdAt(arts, i);
        if i > 0 {
          assert arts[1..][i - 1] == arts[i];
          RolledEarlier(w, u, v, arts[i].id);
        } else {
          assert v.rolled[|w.rolled|..][0] == RolledBack(arts[0].id);
        }
      }
    }
  }

  lemma RolledEarlier(u: Writer, v: Writer, w: Writer, id: int)
    requires u.rolled <= v.rolled && v.rolled <= w.rolled && RolledSince(v, w, id)
    ensures RolledSince(u, w, id)
  {
    var i :| 0 <= i < |w.rolled[|v.rolled|..]| && w.rolled[|v.rolled|..][i] == RolledBack(id);
    assert w.rolled[|u.rolled|..][i + |v.rolled| - |u.rolled|] == RolledBack(id);
  }

  // ----- the run an arrival completes

  /** What one merged write of this run leaves of a file. */
  ghost predicate RunWritten(f: File, run: seq<BufferedArticle>, c: int, g: File) {
    && g.w.handle.env == f.w.handle.env && g.w.handle.log == f.w.handle.log + [Extent(c, |BytesOf(run)|)]
    && f.w.rolled <= g.w.rolled
    && if f.w.handle.env(|f.w.handle.log|).Failed? then
         && g.w.noted == f.w.noted
         && forall i | 0 <= i < |run| :: RolledSince(f.w, g.w, run[i].id) && run[i].id !in g.w.seenDone
       else
         && g.w.seenDone == f.w.seenDone
         && forall i | 0 <= i < |run| :: ClaimedIn(g.w, run[i]) && IsDown(g.w.handle.bytes, run[i])
  }

  lemma WriteRunWrites(f: File, arts: seq<BufferedArticle>, c: int)
    requires Tiles(arts, c)
    ensures RunWritten(f, arts, c, WriteRun(f, FlushRun(c, BytesOf(arts), PartsOf(arts))).0)
  {
    var (d, ok) := WriteAt(f.w.handle, BytesOf(arts), c);
    var w := f.w.(handle := d);
    if ok {
      NoteAllKeeps(w, PartsOf(arts));
      NoteAllKeepsHandle(w, PartsOf(arts));
      forall i | 0 <= i < |arts| ensures ClaimedIn(NoteAll(w, PartsOf(arts)), arts[i]) && IsDown(d.bytes, arts[i]) {
        NoteAllClaims(w, arts, i);
        RunLandsEveryPart(f.w.handle, arts, c, i);
      }
    } else {
      FailAllKeepsHandle(w, PartsOf(arts));
      FailAllRolls(w, arts);
    }
  }

  /** A file whose run is long enough writes it, and nothing else. */
  lemma LongRunIsWritten(h: File)
    requires CacheAccounted(h) && h.buf.Some? && |BytesOf(RunOf(h))| >= 524288
    ensures var g := FlushContiguous(h).0;
            && RunWritten(h, RunOf(h), h.buf.value.writeCursor, g)
            && g.Buffer().writeCursor == h.buf.value.writeCursor + |BytesOf(RunOf(h))|
            && g.Articles() == h.Articles() - Offsets(RunOf(h))
  {
    var fb := h.buf.value;
    assert h.Articles() == map[] ==> RunOf(h) == [];
    RunTaken(fb, CONTIGUOUS_RUN_SIZE);
    var k := h.(buf := Some(BuildRun(fb, CONTIGUOUS_RUN_SIZE).1), freed := h.freed + LoansOf(RunOf(h)));
    WriteRunWrites(k, RunOf(h), fb.writeCursor);
    WriteRunKeepsBuffer(k, BuildRun(fb, CONTIGUOUS_RUN_SIZE).0.value);
  }

  lemma WriteRunKeepsBuffer(f: File, run: FlushRun)
    ensures WriteRun(f, run).0.buf == f.buf
  {
  }

  lemma ShortRunWaits(h: File)
    requires h.buf.Some? && |BytesOf(RunOf(h))| < 524288
    ensures FlushContiguous(h).0 == h
  {
  }

  /** The run that an arrival completes has the arrival in it. */
  lemma ArrivalIsInRun(f: File, a: BufferedArticle) returns (i: nat)
    requires InvBut(f, a.id) && !OffsetSettledBy(f.w, a.offset, a.id) && Unready(f) && a.data.Len() > 0
    requires |BytesOf(RunOf(Buffered(f, a)))| >= 524288
    ensures i < |RunOf(Buffered(f, a))| && RunOf(Buffered(f, a))[i] == a
  {
    var g, h := Claim(f, a.offset, a.id), Buffered(f, a);
    ClaimUnready(f, a.offset, a.id);
    ClaimKeepsInvBut(f, a.offset, a.id);
    BufferedIsSound(f, a);
    RunGoesThrough(g.Articles(), a, g.Buffer().writeCursor);
    RunTaken(h.buf.value, CONTIGUOUS_RUN_SIZE);
    assert g.buf.None? ==> Contiguous(g.Articles(), g.Buffer().writeCursor) == [];
    i := FindOffset(RunOf(h), a.offset);
    assert h.Articles()[a.offset] == a;
  }

  // ----- an arrival placed

  lemma PlacedDirectly(f: File, limit: int, w: Writer, a: BufferedArticle)
    requires w.handle == f.w.handle && w.noted == f.w.noted && w.rolled == f.w.rolled && a.id in w.seenDone
    requires limit <= 0 || a.data.Len() == 0
    ensures IsWritten(f, limit, Accept(f.(w := w), limit, a).0, a)
  {
    var h := Claim(f.(w := w), a.offset, a.id);
    var g := WriteOne(h, a).0;
    WriteOneTells(h, a);
    if f.w.handle.env(|f.w.handle.log|).Failed? {
      assert AWriteFailed(h.w.handle, g.w.handle);
      RolledEarlier(f.w, h.w, g.w, a.id);
    }
  }

  lemma RunPlaces(f: File, limit: int, h: File, g: File, run: seq<BufferedArticle>, c: int, a: BufferedArticle, i: nat)
    requires h.w.handle == f.w.handle && h.w.noted == f.w.noted && f.w.rolled <= h.w.rolled && a.id in h.w.seenDone
    requires RunWritten(h, run, c, g) && i < |run| && run[i] == a && WriteOf(f, limit, a) == Extent(c, |BytesOf(run)|)
    ensures IsWritten(f, limit, g, a)
  {
    if f.w.handle.env(|f.w.handle.log|).Failed? {
      RolledEarlier(f.w, h.w, g.w, a.id);
    }
  }

  lemma PlacedInRun(f: File, limit: int, w: Writer, a: BufferedArticle)
    requires w.handle == f.w.handle && w.noted == f.w.noted && w.rolled == f.w.rolled
    requires InvBut(f.(w := w), a.id) && !OffsetSettledBy(w, a.offset, a.id) && Unready(f)
    requires limit > 0 && a.data.Len() > 0 && RunLength(With(f, a), f.Buffer().writeCursor) >= 524288
    ensures var g := Accept(f.(w := w), limit, a).0; IsWritten(f, limit, g, a) && RunIsGone(f, g, a)
  {
    var e := f.(w := w);
    var h := Buffered(e, a);
    BufferedIsWith(e, a);
    assert CacheAccounted(h) by {
      BufferedIsSound(e, a);
    }
    assert RunOf(h) == Contiguous(With(f, a), f.Buffer().writeCursor);
    LongRunIsWritten(h);
    var i := ArrivalIsInRun(e, a);
    RunPlaces(f, limit, h, FlushContiguous(h).0, RunOf(h), f.Buffer().writeCursor, a, i);
  }

  lemma PlacedInCache(f: File, limit: int, w: Writer, a: BufferedArticle)
    requires w.handle == f.w.handle && w.noted == f.w.noted && a.id in w.seenDone
    requires limit > 0 && a.data.Len() > 0 && RunLength(With(f, a), f.Buffer().writeCursor) < 524288
    ensures IsCached(f, Accept(f.(w := w), limit, a).0, a)
  {
    BufferedIsWith(f.(w := w), a);
    ShortRunWaits(Buffered(f.(w := w), a));
  }

  /**
   * An article a file has no reason to turn away is written at once or cached, as its size and the cached articles
   * decide. Written, it takes with it exactly the run it completes, in one write, and is claimed and on the file
   * unless that write fails; cached, nothing is written.
   */
  lemma WelcomeIsPlaced(f: File, limit: int, info: FileInfo, a: BufferedArticle)
    requires Inv(f, []) && RunLength(f.Articles(), f.Buffer().writeCursor) < 524288
    requires Representable(a) && IsWelcome(f.w, info, a)
    ensures var g := HandleSuccess(f, limit, info, a).0;
            if WritesAtOnce(f, limit, a) then IsWritten(f, limit, g, a) && (limit > 0 && a.data.Len() > 0 ==> RunIsGone(f, g, a))
            else IsCached(f, g, a)
  {
    var w := if a.id in f.w.seenFailed then AdmitRetryOfFailed(f.w, a.id) else AdmitAccepted(f.w, a.id);
    RangeCheckIsExact(info, a);
    ClaimsTellWhoSettled(f.w, a.offset, a.id);
    AdmitKeepsInvBut(f, w, a.id);
    assert HandleSuccess(f, limit, info, a).0 == Accept(f.(w := w), limit, a).0;
    if limit <= 0 || a.data.Len() == 0 {
      PlacedDirectly(f, limit, w, a);
    } else if WritesAtOnce(f, limit, a) {
      PlacedInRun(f, limit, w, a);
    } else {
      PlacedInCache(f, limit, w, a);
    }
  }

  // ----- over every run

  /** Counted as failed for good; its buffer goes back if it was not counted before. */
  ghost predicate IsFailed(f: File, g: File, a: BufferedArticle) {
    && SameBytes(f, g) && g.w.seenDone == f.w.seenDone && g.w.seenFailed == f.w.seenFailed + {a.id}
    && g.freed == f.freed + if a.id in f.w.seenDone + f.w.seenFailed then multiset{} else a.data.Loan()
  }

  /** What a file has become after an arrival. */
  ghost predicate Outcome(f: File, limit: int, info: FileInfo, a: BufferedArticle, fatal: bool, g: File) {
    if fatal then IsFailed(f, g, a)
    else if !IsWelcome(f.w, info, a) then TurnsAway(f, g, a)
    else if WritesAtOnce(f, limit, a) then IsWritten(f, limit, g, a) && (limit > 0 && a.data.Len() > 0 ==> RunIsGone(f, g, a))
    else IsCached(f, g, a)
  }

  lemma ArrivalHasOutcome(f: File, limit: int, info: FileInfo, a: BufferedArticle)
    requires Inv(f, []) && Unready(f) && Representable(a)
    ensures Outcome(f, limit, info, a, false, HandleSuccess(f, limit, info, a).0)
  {
    if IsWelcome(f.w, info, a) {
      assert f.buf.None? ==> Contiguous(f.Articles(), f.Buffer().writeCursor) == [];
      WelcomeIsPlaced(f, limit, info, a);
    } else {
      UnwelcomeLeavesNothing(f, limit, info, a);
    }
  }

  lemma HandingBackKeepsOutcome(f: File, limit: int, info: FileInfo, a: BufferedArticle, fatal: bool, g: File)
    requires Outcome(f, limit, info, a, fatal, g)
    ensures Outcome(f, limit, info, a, fatal, TakeFaulted(g))
  {
  }

  lemma FlushAddsNone(f: File)
    ensures TotalOf(FlushContiguous(f).0.buf) <= TotalOf(f.buf)
  {
    if f.buf.Some? && BuildRun(f.buf.value, CONTIGUOUS_RUN_SIZE).0.Some? {
      WriteRunKeepsBuffer(f.(buf := Some(BuildRun(f.buf.value, CONTIGUOUS_RUN_SIZE).1),
                             freed := f.freed + LoansOf(RunOf(f))), BuildRun(f.buf.value, CONTIGUOUS_RUN_SIZE).0.value);
    }
  }

  lemma AcceptAddsNoMore(f: File, limit: int, a: BufferedArticle)
    ensures TotalOf(Accept(f, limit, a).0.buf) <= TotalOf(f.buf) + a.data.Len()
  {
    assert TotalOf(Claim(f, a.offset, a.id).buf) <= TotalOf(f.buf);
    if limit > 0 && a.data.Len() > 0 {
      FlushAddsNone(Buffered(f, a));
      assert TotalOf(Buffered(f, a).buf) <= TotalOf(f.buf) + a.data.Len();
    }
  }

  lemma ArrivalAddsNoMore(f: File, limit: int, info: FileInfo, a: BufferedArticle)
    ensures TotalOf(HandleSuccess(f, limit, info, a).0.buf) <= TotalOf(f.buf) + a.data.Len()
  {
    if a.id !in f.w.seenDone {
      var w := if a.id in f.w.seenFailed then AdmitRetryOfFailed(f.w, a.id) else AdmitAccepted(f.w, a.id);
      AcceptAddsNoMore(f.(w := w), limit, a);
    }
  }

  /** There is room for the article: with it the cache holds no more than nine tenths of its limit. */
  ghost predicate HasRoom(s: Worker, a: BufferedArticle) {
    s.limit <= 0 || 10 * (s.used + a.data.Len()) <= 9 * s.limit
  }

  /** But for what it held to be handed back, the file is as it was, and so is everything else. */
  ghost predicate HandedBack(s: Worker, t: Worker, key: FileKey)
    requires key in s.open
  {
    && t.open == s.open[key := s.open[key].(w := s.open[key].w.(faulted := []))]
    && t.perFile == s.perFile && t.used == s.used && t.limit == s.limit && t.freed == s.freed
  }

  lemma ReleaseHandsBack(s: Worker, key: FileKey)
    requires key in s.open
    ensures HandedBack(s, ReleaseFaulted(s, key), key)
  {
  }

  lemma RouteHandsBack(s: Worker, key: FileKey, id: int, r: AcceptResult)
    requires key in s.open
    ensures var t := RouteAccept(s, key, id, r);
            HandedBack(s, t, key) || t == s.(calls := t.calls)
  {
    if r.WriteFault? {
      ReleaseHandsBack(s, key);
    }
  }

  lemma SettleHandsBack(s: Worker, u: Worker, key: FileKey, admitted: bool)
    requires key in u.open && (HandedBack(u, s, key) || s == u.(calls := s.calls))
    ensures HandedBack(u, Settle(s, key, admitted), key)
  {
    ReleaseHandsBack(s, key);
  }

  /** With room for the article nothing else is done than handing it to its file. */
  lemma RoomMeansNoMore(s: Worker, key: FileKey, a: BufferedArticle, victims: seq<FileKey>)
    requires key in s.open && HasRoom(s, a)
    ensures HandedBack(DeliverAt(s, key, a).0, AtOpenFile(s, key, a, false, victims), key)
  {
    var (u, arrival) := DeliverAt(s, key, a);
    var (t, admitted) := TakeOn(s, key, a, false);
    ArrivalAddsNoMore(FileOf(s, key), s.limit, s.open[key].info, a);
    assert u.used <= s.used + a.data.Len();
    if !arrival.Duplicate? {
      RouteHandsBack(u, key, a.id, arrival.result);
    }
    EaseIsLeftAlone(t, victims);
    SettleHandsBack(t, u, key, admitted);
  }

  /** Nothing about any other file has changed. */
  ghost predicate OthersAlone(s: Worker, t: Worker, key: FileKey) {
    t.open - {key} == s.open - {key} && t.perFile - {key} == s.perFile - {key}
  }

  lemma DeliveredAlone(u: Worker, key: FileKey, a: BufferedArticle, t: Worker)
    requires key in u.open && HandedBack(DeliverAt(u, key, a).0, t, key)
    ensures key in t.open && OthersAlone(u, t, key)
    ensures FileOf(t, key) == TakeFaulted(HandleSuccess(FileOf(u, key), u.limit, u.open[key].info, a).0)
  {
  }

  lemma DeliveredHasOutcome(u: Worker, key: FileKey, a: BufferedArticle, victims: seq<FileKey>)
    requires FileIsCalm(u, key) && HasRoom(u, a) && Representable(a)
    ensures var t := AtOpenFile(u, key, a, false, victims);
            && key in t.open && OthersAlone(u, t, key)
            && Outcome(FileOf(u, key), u.limit, u.open[key].info, a, false, FileOf(t, key))
  {
    var f := FileOf(u, key);
    RoomMeansNoMore(u, key, a, victims);
    DeliveredAlone(u, key, a, AtOpenFile(u, key, a, false, victims));
    ArrivalHasOutcome(f, u.limit, u.open[key].info, a);
    HandingBackKeepsOutcome(f, u.limit, u.open[key].info, a, false, HandleSuccess(f, u.limit, u.open[key].info, a).0);
  }

  /** A failure touches neither the cache nor the file. */
  lemma FailureHasOutcome(u: Worker, key: FileKey, a: BufferedArticle, victims: seq<FileKey>)
    requires key in u.open && HasRoom(u, a)
    ensures var t := AtOpenFile(u, key, a, true, victims);
            && key in t.open && OthersAlone(u, t, key)
            && Outcome(FileOf(u, key), u.limit, u.open[key].info, a, true, FileOf(t, key))
  {
    var (t, admitted) := FailAt(u, key, a);
    EaseIsLeftAlone(t, victims);
    SettleHandsBack(t, t, key, admitted);
    assert FileOf(AtOpenFile(u, key, a, true, victims), key) == TakeFaulted(FileOf(t, key));
  }

  /** The file as an article finds it: open, or just opened. */
  ghost function FoundAs(s: Worker, key: FileKey, fate: Fate): Worker
    requires key in s.open || fate.opening.OpenedAs?
  {
    if key in s.open then s else OpenTarget(s, key, fate.opening.info, fate.opening.handle)
  }

  lemma FoundCalm(s: Worker, key: FileKey, fate: Fate)
    requires key in s.open || (fate.opening.OpenedAs? && key !in s.perFile)
    requires key in s.open ==> FileIsCalm(s, key)
    ensures FileIsCalm(FoundAs(s, key, fate), key) && FoundAs(s, key, fate).open - {key} == s.open - {key}
  {
    if key !in s.open {
      NewFileIsCalm(s, key, fate.opening.info, fate.opening.handle);
    }
  }

  lemma RunIsCalm(limit: int, reqs: seq<Request>, fates: seq<Fate>, key: FileKey)
    requires |fates| == |reqs|
    ensures var s := Serve(NewWorker(limit), reqs, fates);
            (key in s.open ==> FileIsCalm(s, key)) && (key !in s.open ==> key !in s.perFile)
  {
    var s := Serve(NewWorker(limit), reqs, fates);
    CalmIsKept(limit);
    WorkerKeepsFiles(limit, reqs, fates, Calm, Anything);
    CacheIsAccountedFor(limit, reqs, fates);
    if key in s.open {
      assert Calm(key, s.open[key].info, FileOf(s, key));
    }
  }

  /**
   * Over every run, an article that reaches its file while the cache has room for it is turned away, cached or
   * written as the file's record, the size of the article and the file's cached articles decide, or counted as failed
   * for good if that is how it comes; and its request touches no other file.
   */
  lemma ArticleHasOutcome(limit: int, reqs: seq<Request>, fates: seq<Fate>, key: FileKey, a: BufferedArticle,
                          fatal: bool, fate: Fate)
    requires |fates| == |reqs| && Representable(a)
    requires Reaches(Serve(NewWorker(limit), reqs, fates), Article(key, a, false), fate)
    requires HasRoom(Serve(NewWorker(limit), reqs, fates), a)
    ensures var s := Serve(NewWorker(limit), reqs, fates);
            var (t, u) := (Dispatch(s, Article(key, a, fatal), fate), FoundAs(s, key, fate));
            && key in t.open && OthersAlone(s, t, key)
            && Outcome(FileOf(u, key), s.limit, u.open[key].info, a, fatal, FileOf(t, key))
  {
    var s := Serve(NewWorker(limit), reqs, fates);
    RunIsCalm(limit, reqs, fates, key);
    FoundCalm(s, key, fate);
    if fatal {
      FailureHasOutcome(FoundAs(s, key, fate), key, a, fate.victims);
    } else {
      DeliveredHasOutcome(FoundAs(s, key, fate), key, a, fate.victims);
    }
  }
}
