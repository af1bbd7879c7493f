/** What writing a file's buffered articles out comes to, told by the writes made and the bytes left behind. */
module Drains {
  import opened Types
  import opened FileBuffer
  import opened Writing
  import opened WriterInvariant
  import opened WriterRuns
  import opened DrainTruth

  /** Of the writes by which one handle comes to be the other, one failed. */
  ghost predicate AWriteFailed(d: Disk, e: Disk) {
    exists i :: |d.log| <= i < |e.log| && d.env(i).Failed?
  }

  /** None of those writes was made after one that failed. */
  ghost predicate StopsAtAFault(d: Disk, e: Disk) {
    forall i | |d.log| <= i < |e.log| - 1 :: !d.env(i).Failed?
  }

  /** A handle some writes later. */
  ghost predicate Continues(d: Disk, e: Disk) {
    e.env == d.env && |d.log| <= |e.log| && e.log[..|d.log|] == d.log
  }

  /** The file has claimed to have written the article where it is. */
  ghost predicate ClaimedIn(w: Writer, a: BufferedArticle) {
    WrittenArticle(a.id, a.offset, a.data.Len(), a.crc32) in w.noted
  }

  /** The article has been taken back since. */
  ghost predicate RolledSince(w: Writer, v: Writer, id: int) {
    |w.rolled| <= |v.rolled| && RolledBack(id) in v.rolled[|w.rolled|..]
  }

  // ----- writing in order

  /** A later record of the same file: its handle some writes later, its histories longer. */
  ghost predicate Later(w: Writer, v: Writer) {
    && Continues(w.handle, v.handle)
    && w.noted <= v.noted && w.rolled <= v.rolled
  }

  lemma LaterStill(u: Writer, v: Writer, w: Writer)
    requires Later(u, v) && Later(v, w)
    ensures Later(u, w)
    ensures AWriteFailed(u.handle, w.handle) <==> AWriteFailed(u.handle, v.handle) || AWriteFailed(v.handle, w.handle)
  {
    if AWriteFailed(u.handle, w.handle) {
      var i :| |u.handle.log| <= i < |w.handle.log| && u.handle.env(i).Failed?;
      assert i < |v.handle.log| || |v.handle.log| <= i;
    }
  }

  lemma StillRolled(u: Writer, v: Writer, w: Writer, id: int)
    requires Later(u, v) && Later(v, w) && (RolledSince(u, v, id) || RolledSince(v, w, id))
    ensures RolledSince(u, w, id)
  {
    if RolledSince(u, v, id) {
      var i :| 0 <= i < |v.rolled[|u.rolled|..]| && v.rolled[|u.rolled|..][i] == RolledBack(id);
      assert w.rolled[|u.rolled|..][i] == RolledBack(id);
    } else {
      var i :| 0 <= i < |w.rolled[|v.rolled|..]| && w.rolled[|v.rolled|..][i] == RolledBack(id);
      assert w.rolled[|u.rolled|..][i + |v.rolled| - |u.rolled|] == RolledBack(id);
    }
  }

  /** One write: it claims the article or takes it back, as the write turned out. */
  lemma WriteOneTells(f: File, a: BufferedArticle)
    ensures var (g, ok) := WriteOne(f, a);
            && Later(f.w, g.w) && |g.w.handle.log| == |f.w.handle.log| + 1
            && (ok <==> !AWriteFailed(f.w.handle, g.w.handle))
            && (ok ==> ClaimedIn(g.w, a) && IsDown(g.w.handle.bytes, a))
            && (!ok ==> RolledSince(f.w, g.w, a.id))
            && forall k | k < a.offset || a.End() <= k :: SameByte(f.w.handle.bytes, g.w.handle.bytes, k)
  {
    var (g, ok) := WriteOne(f, a);
    assert f.w.handle.env(|f.w.handle.log|).Failed? <==> !ok;
    if ok {
      assert g.w.noted[|f.w.noted|] == WrittenArticle(a.id, a.offset, a.data.Len(), a.crc32);
    } else {
      assert g.w.rolled[|f.w.rolled|..] == [RolledBack(a.id)];
    }
  }

  ghost predicate SameByte(c: Content, d: Content, k: int) {
    (k in c <==> k in d) && (k in c ==> c[k] == d[k])
  }

  lemma {:induction false} AbandonTells(f: File, rest: seq<BufferedArticle>)
    ensures var g := Abandon(f, rest);
            && Later(f.w, g.w) && g.w.handle == f.w.handle && g.w.noted == f.w.noted
            && forall i | 0 <= i < |rest| :: RolledSince(f.w, g.w, rest[i].id)
    decreases |rest|
  {
    if rest != [] {
      var h := f.(w := Fail(f.w, rest[0].id), freed := f.freed + rest[0].data.Loan());
      assert h.w.rolled[|f.w.rolled|..] == [RolledBack(rest[0].id)];
      AbandonTells(h, rest[1..]);
      forall i | 0 <= i < |rest| ensures RolledSince(f.w, Abandon(f, rest).w, rest[i].id) {
        if i > 0 {
          assert rest[i] == rest[1..][i - 1];
        }
        StillRolled(f.w, h.w, Abandon(f, rest).w, rest[i].id);
      }
    }
  }

  /** Each article ends where the next begins, or before. */
  ghost predicate Apart(arts: seq<BufferedArticle>) {
    forall i, j | 0 <= i < j < |arts| :: arts[i].End() <= arts[j].offset
  }

  /** Every article of a batch is claimed or taken back, and all are claimed exactly if no write failed. */
  ghost predicate Accounts(w: Writer, v: Writer, arts: seq<BufferedArticle>, ok: bool) {
    && Later(w, v)
    && (ok <==> !AWriteFailed(w.handle, v.handle))
    && (forall i | 0 <= i < |arts| :: ClaimedIn(v, arts[i]) || RolledSince(w, v, arts[i].id))
    && (ok ==> forall i | 0 <= i < |arts| :: ClaimedIn(v, arts[i]))
  }

  lemma AccountsOneMore(u: Writer, v: Writer, w: Writer, arts: seq<BufferedArticle>, ok: bool)
    requires arts != [] && Later(u, v) && !AWriteFailed(u.handle, v.handle) && ClaimedIn(v, arts[0])
    requires Accounts(v, w, arts[1..], ok)
    ensures Accounts(u, w, arts, ok)
  {
    LaterStill(u, v, w);
    forall i | 0 <= i < |arts|
      ensures ClaimedIn(w, arts[i]) || RolledSince(u, w, arts[i].id)
      ensures ok ==> ClaimedIn(w, arts[i])
    {
      if i > 0 {
        assert arts[i] == arts[1..][i - 1];
        if RolledSince(v, w, arts[i].id) {
          StillRolled(u, v, w, arts[i].id);
        }
      }
    }
  }

  lemma AccountsStopped(u: Writer, v: Writer, w: Writer, arts: seq<BufferedArticle>)
    requires arts != [] && Later(u, v) && AWriteFailed(u.handle, v.handle) && RolledSince(u, v, arts[0].id)
    requires Later(v, w) && w.handle == v.handle
    requires forall i | 0 <= i < |arts[1..]| :: RolledSince(v, w, arts[1..][i].id)
    ensures Accounts(u, w, arts, false)
  {
    LaterStill(u, v, w);
    forall i | 0 <= i < |arts| ensures RolledSince(u, w, arts[i].id) {
      if i > 0 {
        assert arts[i] == arts[1..][i - 1];
      }
      StillRolled(u, v, w, arts[i].id);
    }
  }

  lemma {:induction false} WriteInOrderTells(f: File, arts: seq<BufferedArticle>)
    ensures Accounts(f.w, WriteInOrder(f, arts).0.w, arts, WriteInOrder(f, arts).1)
    decreases |arts|
  {
    if arts != [] {
      var (g, ok) := WriteOne(f, arts[0]);
      WriteOneTells(f, arts[0]);
      if ok {
        WriteInOrderTells(g, arts[1..]);
        AccountsOneMore(f.w, g.w, WriteInOrder(f, arts).0.w, arts, WriteInOrder(f, arts).1);
      } else {
        AbandonTells(g, arts[1..]);
        AccountsStopped(f.w, g.w, WriteInOrder(f, arts).0.w, arts);
      }
    }
  }

  lemma {:induction false} WriteInOrderLeavesBefore(f: File, arts: seq<BufferedArticle>, k: int)
    requires WriteInOrder(f, arts).1 && forall i | 0 <= i < |arts| :: k < arts[i].offset
    ensures SameByte(f.w.handle.bytes, WriteInOrder(f, arts).0.w.handle.bytes, k)
    decreases |arts|
  {
    if arts != [] {
      WriteOneTells(f, arts[0]);
      WriteInOrderLeavesBefore(WriteOne(f, arts[0]).0, arts[1..], k);
    }
  }

  lemma StaysDown(c: Content, d: Content, a: BufferedArticle)
    requires IsDown(c, a) && forall k | a.offset <= k < a.End() :: SameByte(c, d, k)
    ensures IsDown(d, a)
  {
    forall k | a.offset <= k < a.End() ensures k in d && d[k] == a.data.Bytes()[k - a.offset] {
      assert SameByte(c, d, k);
    }
  }

  /** A batch of articles that do not overlap is all on the file once its writes have succeeded. */
  lemma {:induction false} WriteInOrderLands(f: File, arts: seq<BufferedArticle>)
    requires WriteInOrder(f, arts).1 && Apart(arts)
    ensures forall i | 0 <= i < |arts| :: IsDown(WriteInOrder(f, arts).0.w.handle.bytes, arts[i])
    decreases |arts|
  {
    if arts != [] {
      var g := WriteOne(f, arts[0]).0;
      var all := WriteInOrder(f, arts).0.w.handle.bytes;
      WriteOneTells(f, arts[0]);
      WriteInOrderLands(g, arts[1..]);
      forall k | arts[0].offset <= k < arts[0].End() ensures SameByte(g.w.handle.bytes, all, k) {
        forall i | 0 <= i < |arts[1..]| ensures k < arts[1..][i].offset {
          assert arts[1..][i] == arts[i + 1];
        }
        WriteInOrderLeavesBefore(g, arts[1..], k);
      }
      StaysDown(g.w.handle.bytes, all, arts[0]);
      forall i | 0 <= i < |arts| ensures IsDown(all, arts[i]) {
        if i > 0 {
          assert arts[i] == arts[1..][i - 1];
        }
      }
    }
  }

  // ----- drains

  /** The handle is the other some writes later, the last of which failed if any did. */
  ghost predicate WroteTo(d: Disk, e: Disk, ok: bool) {
    Continues(d, e) && (ok <==> !AWriteFailed(d, e)) && StopsAtAFault(d, e)
  }

  lemma {:induction false} WriteInOrderStops(f: File, arts: seq<BufferedArticle>)
    ensures StopsAtAFault(f.w.handle, WriteInOrder(f, arts).0.w.handle)
    decreases |arts|
  {
    if arts != [] {
      var (g, ok) := WriteOne(f, arts[0]);
      WriteOneTells(f, arts[0]);
      if ok {
        WriteInOrderStops(g, arts[1..]);
        WriteInOrderTells(g, arts[1..]);
      } else {
        AbandonTells(g, arts[1..]);
      }
    }
  }

  /** Writing everything out succeeds exactly if every write it makes does, and ends with the first that does not. */
  lemma FlushTells(f: File)
    ensures WroteTo(f.w.handle, FlushAll(f).0.w.handle, FlushAll(f).1)
  {
    if f.buf.Some? {
      WriteInOrderTells(f.(buf := Some(Drained(f.buf.value))), Sorted(f.Articles()));
      WriteInOrderStops(f.(buf := Some(Drained(f.buf.value))), Sorted(f.Articles()));
    }
  }

  /** No two buffered articles overlap. */
  ghost predicate Unoverlapped(m: Articles) {
    forall o, p | o in m && p in m && o < p :: m[o].End() <= p
  }

  /**
   * What a drain makes of the articles a file had buffered. Each has been claimed or taken back; if no write
   * failed, each has been claimed, and each is on the file if none overlapped another.
   */
  ghost predicate DrainedInto(w: Writer, m: Articles, v: Writer) {
    && Later(w, v)
    && (forall o | o in m :: ClaimedIn(v, m[o]) || RolledSince(w, v, m[o].id))
    && (!AWriteFailed(w.handle, v.handle) ==>
          && (forall o | o in m :: ClaimedIn(v, m[o]))
          && (Unoverlapped(m) ==> forall o | o in m :: IsDown(v.handle.bytes, m[o])))
  }

  lemma SortedApart(m: Articles)
    requires Keyed(m) && Unoverlapped(m)
    ensures Apart(Sorted(m))
  {
    SortedIsSorted(m);
  }

  /** What is said of each article of the batch is said of each the file had buffered. */
  lemma BatchIsBuffer(m: Articles, o: int) returns (i: nat)
    requires Keyed(m) && o in m
    ensures i < |Sorted(m)| && Sorted(m)[i] == m[o]
  {
    SortedIsSorted(m);
    i := FindOffset(Sorted(m), o);
  }

  lemma BatchDrained(w: Writer, m: Articles, v: Writer, ok: bool)
    requires Keyed(m) && Accounts(w, v, Sorted(m), ok)
    requires ok && Unoverlapped(m) ==> forall i | 0 <= i < |Sorted(m)| :: IsDown(v.handle.bytes, Sorted(m)[i])
    ensures DrainedInto(w, m, v)
  {
    forall o | o in m
      ensures ClaimedIn(v, m[o]) || RolledSince(w, v, m[o].id)
      ensures ok ==> ClaimedIn(v, m[o])
      ensures ok && Unoverlapped(m) ==> IsDown(v.handle.bytes, m[o])
    {
      var i := BatchIsBuffer(m, o);
    }
  }

  lemma FlushAllAccounts(f: File)
    requires f.buf.Some? ==> Accounted(f.buf.value)
    ensures var (g, ok) := FlushAll(f);
            DrainedInto(f.w, f.Articles(), g.w) && (ok <==> !AWriteFailed(f.w.handle, g.w.handle))
  {
    if f.buf.Some? {
      var arts := Sorted(f.Articles());
      var h := f.(buf := Some(Drained(f.buf.value)));
      WriteInOrderTells(h, arts);
      if WriteInOrder(h, arts).1 && Unoverlapped(f.Articles()) {
        SortedApart(f.Articles());
        WriteInOrderLands(h, arts);
      }
      BatchDrained(f.w, f.Articles(), WriteInOrder(h, arts).0.w, WriteInOrder(h, arts).1);
    }
  }

  /**
   * Whatever a file has buffered, a drain of it writes or takes back, leaving the write cursor past it all. It says
   * whether a write failed, and makes no write after that one.
   */
  lemma DrainAccounts(f: File)
    requires f.buf.Some? ==> Accounted(f.buf.value)
    ensures var (g, ok) := Drain(f);
            && DrainedInto(f.w, f.Articles(), g.w) && StopsAtAFault(f.w.handle, g.w.handle)
            && (ok <==> !AWriteFailed(f.w.handle, g.w.handle))
            && g.Articles() == map[] && g.w.written == []
            && (f.buf.Some? ==> g.buf.Some? && IsFrontier(f.Articles(), f.buf.value.writeCursor, g.buf.value.writeCursor))
  {
    DrainEmptiesTheBuffer(f);
    FlushAllAccounts(f);
    FlushTells(f);
  }
}
