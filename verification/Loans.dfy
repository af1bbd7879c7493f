/** Every buffer the decoder lends comes back once: what a file operation pays back and what it still holds. */
module Loans {
  import opened Types
  import opened FileBuffer
  import opened Writing
  import opened WriterRuns

  /** The loans a file has paid back or still holds in the cache. */
  ghost function Stock(f: File): multiset<nat> {
    f.freed + HeldBy(f.Articles())
  }

  ghost predicate CacheAccounted(f: File) {
    f.buf.Some? ==> Accounted(f.buf.value)
  }

  lemma {:induction false} AbandonPays(f: File, rest: seq<BufferedArticle>)
    ensures Abandon(f, rest).freed == f.freed + LoansOf(rest)
    decreases |rest|
  {
    if rest != [] {
      AbandonPays(f.(w := Fail(f.w, rest[0].id), freed := f.freed + rest[0].data.Loan()), rest[1..]);
    }
  }

  /** Whether a batch is written or breaks off, each of its buffers is paid back once. */
  lemma {:induction false} WriteInOrderPays(f: File, arts: seq<BufferedArticle>)
    ensures WriteInOrder(f, arts).0.freed == f.freed + LoansOf(arts)
    decreases |arts|
  {
    if arts != [] {
      var (g, ok) := WriteOne(f, arts[0]);
      if ok {
        WriteInOrderPays(g, arts[1..]);
      } else {
        AbandonPays(g, arts[1..]);
      }
    }
  }

  lemma FlushAllPays(f: File)
    requires CacheAccounted(f)
    ensures Stock(FlushAll(f).0) == Stock(f)
  {
    if f.buf.Some? {
      var g := f.(buf := Some(Drained(f.buf.value)));
      DrainKeepsAccount(f.buf.value);
      WriteInOrderPays(g, Sorted(f.Articles()));
      WriteInOrderKeepsBuffer(g, Sorted(f.Articles()));
      NothingHeld();
    }
  }

  lemma FlushContiguousPays(f: File)
    requires CacheAccounted(f)
    ensures Stock(FlushContiguous(f).0) == Stock(f)
  {
    if f.buf.Some? {
      RunKeepsAccount(f.buf.value, CONTIGUOUS_RUN_SIZE);
    }
  }

  lemma ClaimPays(f: File, off: int, id: int)
    requires CacheAccounted(f)
    ensures Stock(Claim(f, off, id)) == Stock(f) && CacheAccounted(Claim(f, off, id))
  {
    if off in f.w.acceptedAt && f.w.acceptedAt[off].id != id && f.buf.Some? {
      var rest := DropArticle(f.buf.value, off);
      DropKeepsAccount(f.buf.value, off);
      assert Displace(f, off, id).Articles() == rest.articles;
      assert f.freed + (HeldBy(rest.articles) + LoanAt(f.Articles(), off)) == Stock(f);
    }
  }

  /** What was lent is moved from one side of the books to the other. */
  lemma Regroup(freed: multiset<nat>, loan: multiset<nat>, held: multiset<nat>, before: multiset<nat>, more: multiset<nat>)
    requires held + loan == before + more
    ensures (freed + loan) + held == (freed + before) + more
  {
    forall i ensures ((freed + loan) + held)[i] == ((freed + before) + more)[i] {
      assert (held + loan)[i] == (before + more)[i];
    }
  }

  lemma BufferingPays(g: File, h: File, a: BufferedArticle)
    requires CacheAccounted(g) && a.data.Len() > 0
    requires h.buf == Some(PutArticle(g.Buffer(), a)) && h.freed == g.freed + LoanAt(g.Articles(), a.offset)
    ensures CacheAccounted(h) && Stock(h) == Stock(g) + a.data.Loan()
  {
    assert Accounted(EMPTY_BUF) by { assert Sizes(map[]) == map[]; }
    PutKeepsAccount(g.Buffer(), a);
    Regroup(g.freed, LoanAt(g.Articles(), a.offset), HeldBy(h.Articles()), HeldBy(g.Articles()), a.data.Loan());
  }

  lemma AcceptPays(f: File, limit: int, a: BufferedArticle)
    requires CacheAccounted(f)
    ensures Stock(Accept(f, limit, a).0) == Stock(f) + a.data.Loan()
  {
    var g := Claim(f, a.offset, a.id);
    ClaimPays(f, a.offset, a.id);
    if limit > 0 && a.data.Len() > 0 {
      var h := g.(buf := Some(PutArticle(g.Buffer(), a)), freed := g.freed + LoanAt(g.Articles(), a.offset));
      BufferingPays(g, h, a);
      FlushContiguousPays(h);
    }
  }

  lemma AcceptArticlePays(f: File, limit: int, info: FileInfo, a: BufferedArticle)
    requires CacheAccounted(f)
    ensures Stock(AcceptArticle(f, limit, info, a).0) == Stock(f) + a.data.Loan()
  {
    AcceptPays(f, limit, a);
  }

  /** Whatever becomes of an article, its buffer is taken charge of once. */
  lemma HandleSuccessPays(f: File, limit: int, info: FileInfo, a: BufferedArticle)
    requires CacheAccounted(f)
    ensures Stock(HandleSuccess(f, limit, info, a).0) == Stock(f) + a.data.Loan()
  {
    if a.id !in f.w.seenDone {
      var w := if a.id in f.w.seenFailed then AdmitRetryOfFailed(f.w, a.id) else AdmitAccepted(f.w, a.id);
      AcceptArticlePays(f.(w := w), limit, info, a);
    }
  }

  lemma StepPays(f: File, limit: int, info: FileInfo, op: FileOp)
    requires CacheAccounted(f)
    ensures Stock(Step(f, limit, info, op)) == Stock(f) + (if op.Arrive? then op.a.data.Loan() else multiset{})
  {
    match op
    case Arrive(a) => HandleSuccessPays(f, limit, info, a);
    case PressureFlush => FlushAllPays(f);
    case DrainFile => FlushAllPays(f);
    case _ =>
  }
}
