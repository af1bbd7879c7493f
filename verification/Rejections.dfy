/** Which articles their owners are told to give up, and which writes they are told have failed. */
module Rejections {
  import opened Types
  import opened FileBuffer
  import opened Writing
  import opened WriterInvariant
  import opened WriteBounds
  import opened Drains
  import opened Assembly
  import opened WorkerMoves
  import opened WorkerFiles
  import opened WorkerLedger

  // ----- counting calls

  /** How often this call has been made. */
  ghost function Raised(calls: seq<Call>, c: Call): nat {
    multiset(calls)[c]
  }

  /** An article refused on arrival: not one that another displaced. */
  predicate IsRefusal(c: Call) {
    c.ArticleRejected? && !c.reason.DisplacedByLater?
  }

  /** Calls that routing what was taken back never makes. */
  predicate NotRouted(c: Call) {
    IsRefusal(c) || c.WriteFaulted? || c.FileComplete?
  }

  lemma {:induction false} RejectCallsRaise(key: FileKey, rolled: seq<Faulted>, c: Call)
    requires NotRouted(c)
    ensures Raised(RejectCalls(key, rolled), c) == 0
    decreases |rolled|
  {
    if rolled != [] {
      RejectCallsRaise(key, rolled[1..], c);
      assert Raised(RejectOne(key, rolled[0]), c) == 0;
    }
  }

  lemma ReleaseRaises(s: Worker, key: FileKey, c: Call)
    requires key in s.open && NotRouted(c)
    ensures Raised(ReleaseFaulted(s, key).calls, c) == Raised(s.calls, c)
  {
    RejectCallsRaise(key, s.open[key].w.faulted, c);
  }

  // ----- refusals

  lemma VictimRefusesNone(s: Worker, key: FileKey, c: Call)
    requires IsRefusal(c)
    ensures Raised(FlushVictim(s, key).0.calls, c) == Raised(s.calls, c)
  {
    if key in s.perFile && s.perFile[key].articles != map[] && key in s.open {
      ReleaseRaises(PutFile(s, key, FlushAll(FileOf(s, key)).0), key, c);
    }
  }

  lemma {:induction false} PressureRefusesNone(s: Worker, victims: seq<FileKey>, c: Call)
    requires IsRefusal(c)
    ensures Raised(RelievePressure(s, victims).calls, c) == Raised(s.calls, c)
    decreases |victims|
  {
    if Pressure(s) && victims != [] {
      VictimRefusesNone(s, victims[0], c);
      if FlushVictim(s, victims[0]).1 {
        PressureRefusesNone(FlushVictim(s, victims[0]).0, victims[1..], c);
      }
    }
  }

  lemma SettleRefusesNone(s: Worker, key: FileKey, admitted: bool, c: Call)
    requires key in s.open && IsRefusal(c)
    ensures Raised(Settle(s, key, admitted).calls, c) == Raised(s.calls, c)
  {
    ReleaseRaises(s, key, c);
  }

  ghost function Refusal(key: FileKey, id: int, r: AcceptResult, c: Call): nat {
    if r.Rejected? && c == ArticleRejected(key, id, r.reason) then 1 else 0
  }

  lemma RouteAcceptRefuses(s: Worker, key: FileKey, id: int, r: AcceptResult, c: Call)
    requires key in s.open && IsRefusal(c)
    ensures Raised(RouteAccept(s, key, id, r).calls, c) == Raised(s.calls, c) + Refusal(key, id, r, c)
  {
    if r.WriteFault? {
      ReleaseRaises(s, key, c);
    } else if r.Rejected? {
      var more := [ArticleRejected(key, id, r.reason)] + if r.anomaly then [PostAnomaly(key)] else [];
      assert multiset(s.calls + more) == multiset(s.calls) + multiset(more);
      assert multiset(more)[c] == Refusal(key, id, r, c);
    }
  }

  ghost function RefusalOf(key: FileKey, id: int, arrival: Arrival, c: Call): nat {
    if arrival.Duplicate? then 0 else Refusal(key, id, arrival.result, c)
  }

  ghost function ArrivalOf(s: Worker, key: FileKey, a: BufferedArticle): Arrival
    requires key in s.open
  {
    HandleSuccess(FileOf(s, key), s.limit, s.open[key].info, a).1
  }

  lemma AtOpenFileRefuses(s: Worker, key: FileKey, a: BufferedArticle, fatal: bool, victims: seq<FileKey>, c: Call)
    requires key in s.open && IsRefusal(c)
    ensures Raised(AtOpenFile(s, key, a, fatal, victims).calls, c)
         == Raised(s.calls, c) + if fatal then 0 else RefusalOf(key, a.id, ArrivalOf(s, key, a), c)
  {
    var (t, admitted) := TakeOn(s, key, a, fatal);
    if !fatal {
      var (u, arrival) := DeliverAt(s, key, a);
      if !arrival.Duplicate? {
        RouteAcceptRefuses(u, key, a.id, arrival.result, c);
      }
    }
    PressureRefusesNone(t, victims, c);
    SettleRefusesNone(if admitted then RelievePressure(t, victims) else t, key, admitted, c);
  }

  // ----- when an article is refused

  /** The article is handed to its file, open already or opened for it. */
  ghost predicate Reaches(s: Worker, req: Request, fate: Fate) {
    && req.Article? && !req.fatal && req.key.jobID !in s.cancelled && req.key !in s.completed
    && (req.key in s.open || fate.opening.OpenedAs?)
  }

  ghost function InfoAt(s: Worker, key: FileKey, fate: Fate): FileInfo
    requires key in s.open || fate.opening.OpenedAs?
  {
    if key in s.open then s.open[key].info else fate.opening.info
  }

  /** The file has accepted the article already. */
  ghost predicate HasAccepted(s: Worker, key: FileKey, id: int) {
    key in s.open && id in s.open[key].w.seenDone
  }

  /** Another article has claimed to have written this offset of the file. */
  ghost predicate IsClaimedByAnother(s: Worker, key: FileKey, off: int, id: int) {
    key in s.open && exists i :: 0 <= i < |s.open[key].w.noted| && s.open[key].w.noted[i].offset == off && s.open[key].w.noted[i].artIdx != id
  }

  /** Why the request's article is to be refused, if it is, told by ranges, claims and tombstones. */
  ghost predicate IsRefused(s: Worker, req: Request, fate: Fate, reason: Reason) {
    match reason
    case OutOfRange =>
      && Reaches(s, req, fate) && !HasAccepted(s, req.key, req.a.id)
      && !Within(InfoAt(s, req.key, fate), req.a.offset, req.a.data.Len())
    case OffsetTaken =>
      && Reaches(s, req, fate) && !HasAccepted(s, req.key, req.a.id)
      && Within(InfoAt(s, req.key, fate), req.a.offset, req.a.data.Len())
      && IsClaimedByAnother(s, req.key, req.a.offset, req.a.id)
    case AfterCompletion =>
      && req.Article? && req.key.jobID !in s.cancelled && req.key in s.completed && req.key in s.open
      && req.a.id !in s.open[req.key].w.seenDone && req.a.id !in s.open[req.key].w.seenFailed
    case DisplacedByLater => false
  }

  lemma ClaimsTellWhoSettled(w: Writer, off: int, id: int)
    requires ClaimsAreSettled(w)
    ensures OffsetSettledBy(w, off, id) <==>
              exists i :: 0 <= i < |w.noted| && w.noted[i].offset == off && w.noted[i].artIdx != id
  {
    if OffsetSettledBy(w, off, id) {
      assert SettledAt(w, off) && Claimed(w, off);
    }
  }

  lemma ArrivalRefused(s: Worker, key: FileKey, a: BufferedArticle, c: Call)
    requires key in s.open && ClaimsAreSettled(s.open[key].w) && Representable(a) && IsRefusal(c)
    ensures RefusalOf(key, a.id, ArrivalOf(s, key, a), c) ==
              if c.key == key && c.art == a.id && a.id !in s.open[key].w.seenDone
                 && (if Within(s.open[key].info, a.offset, a.data.Len())
                     then c.reason.OffsetTaken? && IsClaimedByAnother(s, key, a.offset, a.id) else c.reason.OutOfRange?)
              then 1 else 0
  {
    RangeCheckIsExact(s.open[key].info, a);
    ClaimsTellWhoSettled(s.open[key].w, a.offset, a.id);
  }

  lemma LateArticleRefused(s: Worker, req: Request, fate: Fate, c: Call)
    requires req.Article? && IsRefusal(c) && (req.key.jobID in s.cancelled || req.key in s.completed)
    ensures Raised(Dispatch(s, req, fate).calls, c) == Raised(s.calls, c) +
              if c.key == req.key && c.art == req.a.id && IsRefused(s, req, fate, c.reason) then 1 else 0
  {
  }

  lemma UnopenedArticleRefused(s: Worker, req: Request, fate: Fate, c: Call)
    requires req.Article? && IsRefusal(c) && req.key.jobID !in s.cancelled && req.key !in s.completed
    requires req.key !in s.open && fate.opening.OpenFailed?
    ensures Raised(Dispatch(s, req, fate).calls, c) == Raised(s.calls, c) && !IsRefused(s, req, fate, c.reason)
  {
    var more := [ArticlesUnwritten(req.key, [req.a.id]), WriteFaulted(req.key)];
    assert Dispatch(s, req, fate).calls == s.calls + more;
    assert multiset(s.calls + more) == multiset(s.calls) + multiset(more);
  }

  /** The file as the article is handed to it: open before, or just opened. */
  ghost predicate AsHanded(s: Worker, t: Worker, req: Request, fate: Fate) {
    && req.Article? && req.key.jobID !in s.cancelled && req.key !in s.completed && req.key in t.open
    && if req.key in s.open then t == s
       else fate.opening.OpenedAs? && t == OpenTarget(s, req.key, fate.opening.info, fate.opening.handle)
  }

  /** Why the file it is handed to refuses an article. */
  ghost predicate RefusedThere(t: Worker, key: FileKey, a: BufferedArticle, reason: Reason)
    requires key in t.open
  {
    && a.id !in t.open[key].w.seenDone
    && if Within(t.open[key].info, a.offset, a.data.Len())
       then reason.OffsetTaken? && IsClaimedByAnother(t, key, a.offset, a.id) else reason.OutOfRange?
  }

  lemma RefusedAsHanded(s: Worker, t: Worker, req: Request, fate: Fate, reason: Reason)
    requires AsHanded(s, t, req, fate) && !reason.DisplacedByLater?
    ensures IsRefused(s, req, fate, reason) <==> !req.fatal && RefusedThere(t, req.key, req.a, reason)
  {
  }

  lemma HandedArticleRefused(s: Worker, t: Worker, req: Request, fate: Fate, c: Call)
    requires AsHanded(s, t, req, fate) && IsRefusal(c) && Representable(req.a) && ClaimsAreSettled(t.open[req.key].w)
    ensures Raised(AtOpenFile(t, req.key, req.a, req.fatal, fate.victims).calls, c) == Raised(t.calls, c) +
              if c.key == req.key && c.art == req.a.id && IsRefused(s, req, fate, c.reason) then 1 else 0
  {
    RefusedAsHanded(s, t, req, fate, c.reason);
    ArrivalRefused(t, req.key, req.a, c);
    AtOpenFileRefuses(t, req.key, req.a, req.fatal, fate.victims, c);
  }

  lemma ArticleRefusedExactly(s: Worker, req: Request, fate: Fate, c: Call)
    requires req.Article? && AllFiles(s, Sound, s.limit) && Representable(req.a) && IsRefusal(c)
    ensures Raised(Dispatch(s, req, fate).calls, c) == Raised(s.calls, c) +
              if c.key == req.key && c.art == req.a.id && IsRefused(s, req, fate, c.reason) then 1 else 0
  {
    if req.key.jobID in s.cancelled || req.key in s.completed {
      LateArticleRefused(s, req, fate, c);
    } else if req.key in s.open {
      assert Sound(req.key, s.open[req.key].info, FileOf(s, req.key));
      HandedArticleRefused(s, s, req, fate, c);
    } else if fate.opening.OpenFailed? {
      UnopenedArticleRefused(s, req, fate, c);
    } else {
      HandedArticleRefused(s, OpenTarget(s, req.key, fate.opening.info, fate.opening.handle), req, fate, c);
    }
  }

  lemma {:induction false} ClosingRefusesNone(s: Worker, keys: seq<FileKey>, c: Call)
    requires NotRouted(c)
    ensures Raised(CloseFiles(s, keys).calls, c) == Raised(s.calls, c)
    decreases |keys|
  {
    if keys == [] {
    } else if keys[0] in s.open {
      ReleaseRaises(PutFile(s, keys[0], Drain(FileOf(s, keys[0])).0), keys[0], c);
      ClosingRefusesNone(Tombstone(DrainAndClose(s, keys[0]), keys[0]), keys[1..], c);
    } else {
      ClosingRefusesNone(s, keys[1..], c);
    }
  }

  lemma {:induction false} CancellingTellsNobody(s: Worker, keys: seq<FileKey>, keep: bool)
    ensures CancelFiles(s, keys, keep).calls == s.calls
    decreases |keys|
  {
    if keys == [] {
    } else if keys[0] in s.open {
      CancellingTellsNobody(Tombstone(CloseCancelled(s, keys[0], keep), keys[0]), keys[1..], keep);
    } else {
      CancellingTellsNobody(s, keys[1..], keep);
    }
  }

  /** No request but an article's own makes a call that routing does not make. */
  lemma ControlRaisesNone(s: Worker, req: Request, fate: Fate, c: Call)
    requires !req.Article? && NotRouted(c)
    ensures Raised(Dispatch(s, req, fate).calls, c) == Raised(s.calls, c)
  {
    match req
    case CancelJob(job, keep) => CancellingTellsNobody(s.(cancelled := s.cancelled + {job}), fate.order, keep);
    case CloseHandles(_) => ClosingRefusesNone(s, fate.order, c);
    case SyncDrain(key) =>
      if key in s.open {
        ReleaseRaises(PutFile(s, key, Drain(FileOf(s, key)).0), key, c);
      }
    case SyncClose(key) =>
      if key in s.open {
        ReleaseRaises(PutFile(s, key, Drain(FileOf(s, key)).0), key, c);
      }
    case _ =>
  }

  /**
   * In every run, each request tells the owner once of its article refused as out of range, at an offset
   * another article has claimed, or come after completion, and only if it is; it tells of no other article.
   */
  lemma RefusedExactly(limit: int, reqs: seq<Request>, fates: seq<Fate>, req: Request, fate: Fate,
                       key: FileKey, id: int, reason: Reason)
    requires |fates| == |reqs| && !reason.DisplacedByLater? && (req.Article? ==> Representable(req.a))
    ensures var s := Serve(NewWorker(limit), reqs, fates);
            var c := ArticleRejected(key, id, reason);
            Raised(Dispatch(s, req, fate).calls, c) == Raised(s.calls, c) +
              if req.Article? && key == req.key && id == req.a.id && IsRefused(s, req, fate, reason) then 1 else 0
  {
    var s := Serve(NewWorker(limit), reqs, fates);
    var c := ArticleRejected(key, id, reason);
    if req.Article? {
      SoundIsKept(limit);
      WorkerKeepsFiles(limit, reqs, fates, Sound, Anything);
      ArticleRefusedExactly(s, req, fate, c);
    } else {
      ControlRaisesNone(s, req, fate, c);
    }
  }
}
