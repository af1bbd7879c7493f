/** What each of the barrier's requests changes about the worker, and what it leaves alone. */
module BarrierRequests {
  import opened Types
  import opened FileBuffer
  import opened Writing
  import opened Drains
  import opened Assembly
  import opened Closings
  import opened Replies

  /** Nothing but what is on record of this file has changed. */
  ghost predicate OnlyRecord(s: Worker, t: Worker, key: FileKey, w: Writer)
    requires key in s.open
  {
    t.open == s.open[key := s.open[key].(w := w)] && t == s.(open := t.open)
  }

  /** A listing, a sync and a stat change nothing, and nor does a request about a file that is not open. */
  predicate IsIdle(s: Worker, req: Request)
    requires IsOfBarrier(req)
  {
    req.SyncFiles? || req.SyncJobs? || req.SyncFsync? || req.SyncStat? || req.key !in s.open
  }

  lemma IdleRequestsChangeNothing(s: Worker, req: Request, fate: Fate)
    requires IsOfBarrier(req) && IsIdle(s, req)
    ensures Dispatch(s, req, fate) == s
  {
  }

  lemma PutRecord(s: Worker, key: FileKey, w: Writer)
    requires key in s.open
    ensures OnlyRecord(s, PutFile(s, key, FileOf(s, key).(w := w)), key, w)
  {
    assert key in s.perFile ==> s.perFile[key := s.perFile[key]] == s.perFile;
    assert key !in s.perFile ==> s.perFile - {key} == s.perFile;
  }

  /** A confirmation releases the file's last report, and does nothing else. */
  lemma ConfirmReleasesTheReport(s: Worker, key: FileKey, fate: Fate)
    requires key in s.open
    ensures OnlyRecord(s, Dispatch(s, SyncConfirm(key), fate), key, s.open[key].w.(reported := []))
  {
    PutRecord(s, key, Confirm(FileOf(s, key)).w);
  }

  /** Every byte below the bound is as it was, and there is none at it or past it. */
  ghost predicate IsCutTo(c: Content, d: Content, bound: int) {
    && (forall k :: k in d <==> k in c && k < bound)
    && (forall k | k in d :: d[k] == c[k])
  }

  /**
   * A cut that goes through leaves the file's bytes below the bound and no others, and one that fails, or whose
   * bound is negative, leaves them all; of the record nothing else changes but whether a claim has been cut into.
   */
  lemma TruncateCuts(s: Worker, key: FileKey, bound: int, fate: Fate)
    requires key in s.open
    ensures var t := Dispatch(s, SyncTruncate(key, bound), fate);
            && key in t.open
            && var (v, w) := (s.open[key].w, t.open[key].w);
               && OnlyRecord(s, t, key, v.(handle := v.handle.(bytes := w.handle.bytes), cut := w.cut))
               && if fate.storage.truncate.Some? || bound < 0 then w == v
                  else IsCutTo(v.handle.bytes, w.handle.bytes, bound) && (v.cut ==> w.cut)
  {
    PutRecord(s, key, Truncate(FileOf(s, key), bound).w);
  }

  /** A drain hands back whatever it took back, empties the file's cache entry, and touches no other file. */
  lemma DrainTouchesOneFile(s: Worker, key: FileKey, fate: Fate)
    requires key in s.open && (key in s.perFile ==> Accounted(s.perFile[key]))
    ensures var t := Dispatch(s, SyncDrain(key), fate);
            && key in t.open && OthersStay(s, t, key) && t.open.Keys == s.open.Keys && t.past == s.past
            && DrainedInto(s.open[key].w, ArticlesOf(s, key), t.open[key].w)
            && ArticlesOf(t, key) == map[] && t.open[key].w.faulted == [] && t.open[key].w.written == []
  {
    var f := FileOf(s, key);
    assert f.Articles() == ArticlesOf(s, key);
    DrainAccounts(f);
    HandedBackIsSame(f.w, f.Articles(), Drain(f).0.w);
  }
}
