/** One file's share of the write cache, as values: what each cache operation returns and leaves behind. */
module FileBuffer {
  import opened Types
  import opened MapFold
  import opened IntSets

  // The least coalesced write worth making.
  const CONTIGUOUS_RUN_SIZE := 512 * 1024

  type Articles = map<int, BufferedArticle>

  /** The cache's entry for one file. */
  datatype FileBuf = FileBuf(articles: Articles, writeCursor: int, totalBytes: int)

  const EMPTY_BUF := FileBuf(map[], 0, 0)

  datatype RunPart = RunPart(id: int, offset: int, length: nat, crc32: int)

  /** A contiguous run of articles, merged into a single write. */
  datatype FlushRun = FlushRun(offset: int, data: seq<byte>, parts: seq<RunPart>)

  ghost predicate Keyed(m: Articles) {
    forall o | o in m :: m[o].offset == o && m[o].data.Len() > 0
  }

  ghost function Sizes(m: Articles): map<int, int> {
    map o | o in m :: m[o].data.Len()
  }

  ghost function Loans(m: Articles): map<int, multiset<nat>> {
    map o | o in m :: m[o].data.Loan()
  }

  ghost function BytesIn(m: Articles): int {
    Sum(Sizes(m))
  }

  ghost function HeldBy(m: Articles): multiset<nat> {
    Union(Loans(m))
  }

  lemma NothingHeld()
    ensures HeldBy(map[]) == multiset{}
  {
    assert Loans(map[]) == map[];
  }

  // ----- a file's entry, if it has one

  function BufAt(perFile: map<FileKey, FileBuf>, key: FileKey): Option<FileBuf> {
    if key in perFile then Some(perFile[key]) else None
  }

  function TotalOf(buf: Option<FileBuf>): int {
    if buf.Some? then buf.value.totalBytes else 0
  }

  // ----- sequences of articles

  function BytesOf(arts: seq<BufferedArticle>): seq<byte> {
    if arts == [] then [] else arts[0].data.Bytes() + BytesOf(arts[1..])
  }

  function LoansOf(arts: seq<BufferedArticle>): multiset<nat> {
    if arts == [] then multiset{} else arts[0].data.Loan() + LoansOf(arts[1..])
  }

  ghost function IdsOf(arts: seq<BufferedArticle>): set<int> {
    if arts == [] then {} else {arts[0].id} + IdsOf(arts[1..])
  }

  lemma {:induction false} IdAt(arts: seq<BufferedArticle>, i: nat)
    requires i < |arts|
    ensures arts[i].id in IdsOf(arts)
  {
    if i > 0 {
      IdAt(arts[1..], i - 1);
    }
  }

  function PartOf(a: BufferedArticle): RunPart {
    RunPart(a.id, a.offset, a.data.Len(), a.crc32)
  }

  function PartsOf(arts: seq<BufferedArticle>): (parts: seq<RunPart>)
    ensures |parts| == |arts|
  {
    seq(|arts|, i requires 0 <= i < |arts| => PartOf(arts[i]))
  }

  lemma PartsTail(arts: seq<BufferedArticle>)
    requires arts != []
    ensures PartsOf(arts)[0] == PartOf(arts[0])
    ensures PartsOf(arts)[1..] == PartsOf(arts[1..])
  {
  }

  ghost function Offsets(arts: seq<BufferedArticle>): (s: set<int>)
    ensures forall i | 0 <= i < |arts| :: arts[i].offset in s
  {
    if arts == [] then {} else {arts[0].offset} + Offsets(arts[1..])
  }

  lemma {:induction false} FindOffset(arts: seq<BufferedArticle>, o: int) returns (i: nat)
    requires o in Offsets(arts)
    ensures i < |arts| && arts[i].offset == o
  {
    if arts[0].offset == o {
      i := 0;
    } else {
      var j := FindOffset(arts[1..], o);
      i := j + 1;
    }
  }

  ghost predicate DistinctOffsets(arts: seq<BufferedArticle>) {
    forall i, j | 0 <= i < j < |arts| :: arts[i].offset != arts[j].offset
  }

  ghost predicate Holds(m: Articles, arts: seq<BufferedArticle>) {
    forall i | 0 <= i < |arts| :: arts[i].offset in m && m[arts[i].offset] == arts[i]
  }

  // ----- buffer and discardAt

  function PutArticle(fb: FileBuf, art: BufferedArticle): FileBuf {
    var freed := if art.offset in fb.articles then fb.articles[art.offset].data.Len() else 0;
    FileBuf(fb.articles[art.offset := art], fb.writeCursor, fb.totalBytes - freed + art.data.Len())
  }

  /** The loan an insertion at this offset pays back: the superseded copy's. */
  function LoanAt(m: Articles, off: int): multiset<nat> {
    if off in m then m[off].data.Loan() else multiset{}
  }

  function DropArticle(fb: FileBuf, off: int): FileBuf {
    if off !in fb.articles then fb
    else FileBuf(fb.articles - {off}, fb.writeCursor, fb.totalBytes - fb.articles[off].data.Len())
  }

  // ----- buildContiguousRun

  ghost function Contiguous(m: Articles, cursor: int): seq<BufferedArticle>
    decreases |m|
  {
    if cursor in m && m[cursor].data.Len() > 0 then
      [m[cursor]] + Contiguous(m - {cursor}, cursor + m[cursor].data.Len())
    else []
  }

  ghost function BuildRun(fb: FileBuf, minSize: int): (Option<FlushRun>, FileBuf) {
    var run := Contiguous(fb.articles, fb.writeCursor);
    var data := BytesOf(run);
    if fb.articles == map[] || |data| < minSize then (None, fb)
    else
      (Some(FlushRun(fb.writeCursor, data, PartsOf(run))),
       FileBuf(fb.articles - Offsets(run), fb.writeCursor + |data|, fb.totalBytes - |data|))
  }

  /** The articles lie end to end from c, none of them empty. */
  ghost predicate Tiles(arts: seq<BufferedArticle>, c: int) {
    arts == [] ||
    (arts[0].offset == c && arts[0].data.Len() > 0 && Tiles(arts[1..], arts[0].End()))
  }

  lemma {:induction false} ContiguousTiles(m: Articles, c: int)
    requires Keyed(m)
    ensures Tiles(Contiguous(m, c), c)
    ensures Holds(m, Contiguous(m, c))
    decreases |m|
  {
    if c in m {
      var rest := Contiguous(m - {c}, m[c].End());
      ContiguousTiles(m - {c}, m[c].End());
      assert Contiguous(m, c)[1..] == rest;
    }
  }

  /** The scan is maximal: it stops only where nothing is buffered. */
  lemma {:induction false} ContiguousIsMaximal(m: Articles, c: int)
    requires Keyed(m)
    ensures c + |BytesOf(Contiguous(m, c))| !in m
    decreases |m|
  {
    if c in m {
      var rest := Contiguous(m - {c}, m[c].End());
      ContiguousIsMaximal(m - {c}, m[c].End());
      assert Contiguous(m, c)[0] == m[c] && Contiguous(m, c)[1..] == rest;
      assert c + |BytesOf(Contiguous(m, c))| == m[c].End() + |BytesOf(rest)|;
    }
  }

  lemma {:induction false} TilesAreDistinct(arts: seq<BufferedArticle>, c: int)
    requires Tiles(arts, c)
    ensures DistinctOffsets(arts)
    ensures forall a | a in arts :: c <= a.offset && a.data.Len() > 0
  {
    if arts != [] {
      TilesAreDistinct(arts[1..], arts[0].End());
    }
  }

  /** The parts tile the run exactly: every byte of the merged buffer is some part's own byte. */
  lemma {:induction false} TilesCoverRun(arts: seq<BufferedArticle>, c: int, k: int) returns (i: nat)
    requires Tiles(arts, c)
    requires c <= k < c + |BytesOf(arts)|
    ensures i < |arts| && arts[i].offset <= k < arts[i].End()
    ensures BytesOf(arts)[k - c] == arts[i].data.Bytes()[k - arts[i].offset]
  {
    if k < arts[0].End() {
      i := 0;
    } else {
      var j := TilesCoverRun(arts[1..], arts[0].End(), k);
      i := j + 1;
      assert BytesOf(arts)[k - c] == BytesOf(arts[1..])[k - arts[0].End()];
    }
  }

  lemma {:induction false} TilesStayInside(arts: seq<BufferedArticle>, c: int, i: nat)
    requires Tiles(arts, c) && i < |arts|
    ensures c <= arts[i].offset && arts[i].End() <= c + |BytesOf(arts)|
  {
    if i > 0 {
      TilesStayInside(arts[1..], arts[0].End(), i - 1);
    }
  }

  // ----- drainFile

  /** Every buffered article, in offset order. */
  ghost function Sorted(m: Articles): seq<BufferedArticle>
    decreases |m|
  {
    if m == map[] then []
    else
      var k := MinKey(m.Keys);
      [m[k]] + Sorted(m - {k})
  }

  ghost predicate Ascending(arts: seq<BufferedArticle>) {
    forall i, j | 0 <= i < j < |arts| :: arts[i].offset < arts[j].offset
  }

  lemma HoldsCons(m: Articles, k: int, rest: seq<BufferedArticle>)
    requires k in m && m[k].offset == k && Holds(m - {k}, rest)
    ensures Holds(m, [m[k]] + rest) && Offsets([m[k]] + rest) == {k} + Offsets(rest)
  {
    assert ([m[k]] + rest)[1..] == rest;
  }

  lemma {:induction false} SortedHolds(m: Articles)
    requires Keyed(m)
    ensures Holds(m, Sorted(m)) && Offsets(Sorted(m)) == m.Keys
    decreases |m|
  {
    if m != map[] {
      var k := MinKey(m.Keys);
      SortedHolds(m - {k});
      HoldsCons(m, k, Sorted(m - {k}));
    }
  }

  lemma AscendingCons(a: BufferedArticle, rest: seq<BufferedArticle>)
    requires Ascending(rest)
    requires forall i | 0 <= i < |rest| :: a.offset < rest[i].offset
    ensures Ascending([a] + rest)
  {
  }

  lemma {:induction false} SortedAscends(m: Articles)
    requires Keyed(m)
    ensures Ascending(Sorted(m))
    decreases |m|
  {
    if m != map[] {
      var k := MinKey(m.Keys);
      var rest := Sorted(m - {k});
      SortedAscends(m - {k});
      SortedHolds(m - {k});
      forall i | 0 <= i < |rest| ensures k < rest[i].offset {
        assert rest[i].offset in m - {k};
      }
      AscendingCons(m[k], rest);
    }
  }

  lemma SortedIsSorted(m: Articles)
    requires Keyed(m)
    ensures Holds(m, Sorted(m)) && Offsets(Sorted(m)) == m.Keys
    ensures Ascending(Sorted(m)) && DistinctOffsets(Sorted(m))
  {
    SortedHolds(m);
    SortedAscends(m);
  }

  /** There is only one ascending enumeration, so any sort delivers Sorted. */
  lemma {:induction false} SortedIsUnique(m: Articles, arts: seq<BufferedArticle>)
    requires Keyed(m)
    requires Holds(m, arts) && Offsets(arts) == m.Keys && Ascending(arts)
    ensures arts == Sorted(m)
    decreases |m|
  {
    if m != map[] {
      var k := MinKey(m.Keys);
      AscendingHead(m, arts);
      SortedIsUnique(m - {k}, arts[1..]);
      assert arts == [arts[0]] + arts[1..];
    }
  }

  lemma AscendingHead(m: Articles, arts: seq<BufferedArticle>)
    requires m != map[] && Holds(m, arts) && Offsets(arts) == m.Keys && Ascending(arts)
    ensures arts != [] && arts[0].offset == MinKey(m.Keys)
    ensures Holds(m - {arts[0].offset}, arts[1..]) && Ascending(arts[1..])
    ensures Offsets(arts[1..]) == (m - {arts[0].offset}).Keys
  {
    var i := FindOffset(arts, MinKey(m.Keys));
    assert i == 0;
    if arts[0].offset in Offsets(arts[1..]) {
      var j := FindOffset(arts[1..], arts[0].offset);
      assert false;
    }
  }

  lemma AllTaken(m: Articles, arts: seq<BufferedArticle>)
    requires Offsets(arts) == m.Keys
    ensures m - Offsets(arts) == map[]
  {
  }

  ghost predicate IsFrontier(m: Articles, cursor: int, r: int) {
    && cursor <= r
    && (forall o | o in m :: m[o].End() <= r)
    && (r == cursor || exists o | o in m :: m[o].End() == r)
  }

  /** The write cursor past everything buffered. */
  ghost function Frontier(m: Articles, cursor: int): (r: int)
    ensures IsFrontier(m, cursor, r)
    decreases |m|
  {
    if m == map[] then cursor
    else
      var k := MinKey(m.Keys);
      var rest := Frontier(m - {k}, cursor);
      assert IsFrontier(m, cursor, if m[k].End() > rest then m[k].End() else rest) by {
        if rest != cursor && m[k].End() <= rest {
          var o :| o in m - {k} && (m - {k})[o].End() == rest;
          assert m[o].End() == rest;
        }
        forall o | o in m ensures m[o].End() <= (if m[k].End() > rest then m[k].End() else rest) {
          if o != k { assert (m - {k})[o].End() <= rest; }
        }
      }
      if m[k].End() > rest then m[k].End() else rest
  }

  lemma FrontierIsUnique(m: Articles, cursor: int, r: int)
    requires IsFrontier(m, cursor, r)
    ensures r == Frontier(m, cursor)
  {
  }

  ghost function Drained(fb: FileBuf): FileBuf {
    FileBuf(map[], Frontier(fb.articles, fb.writeCursor), 0)
  }

  // ----- accounting

  ghost predicate Accounted(fb: FileBuf) {
    Keyed(fb.articles) && fb.totalBytes == BytesIn(fb.articles)
  }

  lemma SizesRemove(m: Articles, off: int)
    ensures Sizes(m) - {off} == Sizes(m - {off})
  {
  }

  lemma LoansRemove(m: Articles, off: int)
    ensures Loans(m) - {off} == Loans(m - {off})
  {
  }

  lemma BytesInRemove(m: Articles, off: int)
    requires off in m
    ensures BytesIn(m) == m[off].data.Len() + BytesIn(m - {off})
    ensures HeldBy(m) == m[off].data.Loan() + HeldBy(m - {off})
  {
    SizesRemove(m, off);
    LoansRemove(m, off);
    SumRemove(Sizes(m), off);
    UnionRemove(Loans(m), off);
  }

  lemma TailHolds(m: Articles, arts: seq<BufferedArticle>)
    requires Holds(m, arts) && DistinctOffsets(arts) && arts != []
    ensures Holds(m - {arts[0].offset}, arts[1..]) && DistinctOffsets(arts[1..])
    ensures m - Offsets(arts) == m - {arts[0].offset} - Offsets(arts[1..])
  {
  }

  lemma {:induction false} BytesInRemoveAll(m: Articles, arts: seq<BufferedArticle>)
    requires Holds(m, arts) && DistinctOffsets(arts)
    ensures BytesIn(m) == |BytesOf(arts)| + BytesIn(m - Offsets(arts))
    ensures HeldBy(m) == LoansOf(arts) + HeldBy(m - Offsets(arts))
    decreases |arts|
  {
    if arts == [] {
      assert m - Offsets(arts) == m;
    } else {
      TailHolds(m, arts);
      BytesInRemove(m, arts[0].offset);
      BytesInRemoveAll(m - {arts[0].offset}, arts[1..]);
    }
  }

  lemma RemoveInserted(m: Articles, off: int, art: BufferedArticle)
    ensures m[off := art] - {off} == m - {off}
    ensures off !in m ==> m - {off} == m
  {
  }

  lemma PutKeepsAccount(fb: FileBuf, art: BufferedArticle)
    requires Accounted(fb) && art.data.Len() > 0
    ensures Accounted(PutArticle(fb, art))
    ensures HeldBy(PutArticle(fb, art).articles) + LoanAt(fb.articles, art.offset)
         == HeldBy(fb.articles) + art.data.Loan()
  {
    BytesInRemove(fb.articles[art.offset := art], art.offset);
    RemoveInserted(fb.articles, art.offset, art);
    if art.offset in fb.articles {
      BytesInRemove(fb.articles, art.offset);
    }
  }

  lemma DropKeepsAccount(fb: FileBuf, off: int)
    requires Accounted(fb)
    ensures Accounted(DropArticle(fb, off))
    ensures HeldBy(DropArticle(fb, off).articles) + LoanAt(fb.articles, off) == HeldBy(fb.articles)
  {
    if off in fb.articles {
      BytesInRemove(fb.articles, off);
    }
  }

  /** The run's articles leave the cache in order, each at its own place. */
  lemma RunTaken(fb: FileBuf, minSize: int)
    requires Accounted(fb)
    ensures var run := Contiguous(fb.articles, fb.writeCursor);
            Tiles(run, fb.writeCursor) && Holds(fb.articles, run) && DistinctOffsets(run)
    ensures BuildRun(fb, minSize).0.Some? ==>
              var run := Contiguous(fb.articles, fb.writeCursor);
              && BuildRun(fb, minSize).0.value == FlushRun(fb.writeCursor, BytesOf(run), PartsOf(run))
              && BuildRun(fb, minSize).1.articles == fb.articles - Offsets(run)
  {
    ContiguousTiles(fb.articles, fb.writeCursor);
    TilesAreDistinct(Contiguous(fb.articles, fb.writeCursor), fb.writeCursor);
  }

  lemma RunKeepsAccount(fb: FileBuf, minSize: int)
    requires Accounted(fb)
    ensures Accounted(BuildRun(fb, minSize).1)
    ensures BuildRun(fb, minSize).0.Some? ==>
              HeldBy(fb.articles) == HeldBy(BuildRun(fb, minSize).1.articles)
                                   + LoansOf(Contiguous(fb.articles, fb.writeCursor))
  {
    RunTaken(fb, minSize);
    BytesInRemoveAll(fb.articles, Contiguous(fb.articles, fb.writeCursor));
  }

  lemma DrainKeepsAccount(fb: FileBuf)
    requires Accounted(fb)
    ensures Accounted(Drained(fb))
    ensures HeldBy(fb.articles) == LoansOf(Sorted(fb.articles))
    ensures |BytesOf(Sorted(fb.articles))| == fb.totalBytes
  {
    SortedIsSorted(fb.articles);
    BytesInRemoveAll(fb.articles, Sorted(fb.articles));
    assert fb.articles - Offsets(Sorted(fb.articles)) == map[];
    assert Sizes(map[]) == map[] && Loans(map[]) == map[];
  }
}
