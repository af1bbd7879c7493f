/** The write cache in memory: articles buffered by file and offset, coalesced, evicted and drained in place. */
module WriteCaches {
  import opened Types
  import opened IntSets
  import opened FileBuffer

  /** The decoder's buffer pool, as far as it matters here: which loans have come back, how often. */
  class Pool {
    var freed: multiset<nat>

    constructor ()
      ensures freed == multiset{}
    {
      freed := multiset{};
    }

    method PutBuffer(d: Data)
      modifies this
      ensures freed == old(freed) + d.Loan()
    {
      if d.Buf? {
        freed := freed + multiset{d.id};
      }
    }
  }

  /** The order the program sorts a drained file's articles into. */
  function Insert(arts: seq<BufferedArticle>, a: BufferedArticle): (r: seq<BufferedArticle>)
    ensures |r| == |arts| + 1
    decreases |arts|
  {
    if arts == [] || a.offset < arts[0].offset then [a] + arts else [arts[0]] + Insert(arts[1..], a)
  }

  lemma {:induction false} InsertKeepsOffsets(arts: seq<BufferedArticle>, a: BufferedArticle)
    ensures Offsets(Insert(arts, a)) == Offsets(arts) + {a.offset}
    decreases |arts|
  {
    if arts == [] || a.offset < arts[0].offset {
      assert ([a] + arts)[1..] == arts;
    } else {
      InsertKeepsOffsets(arts[1..], a);
      assert ([arts[0]] + Insert(arts[1..], a))[1..] == Insert(arts[1..], a);
    }
  }

  lemma {:induction false} InsertHolds(m: Articles, arts: seq<BufferedArticle>, a: BufferedArticle)
    requires Holds(m, arts) && a.offset in m && m[a.offset] == a
    ensures Holds(m, Insert(arts, a))
    decreases |arts|
  {
    if arts != [] && arts[0].offset <= a.offset {
      InsertHolds(m, arts[1..], a);
    }
  }

  lemma {:induction false} InsertAscends(arts: seq<BufferedArticle>, a: BufferedArticle)
    requires Ascending(arts) && a.offset !in Offsets(arts)
    ensures Ascending(Insert(arts, a))
    decreases |arts|
  {
    if arts != [] && arts[0].offset <= a.offset {
      InsertAscends(arts[1..], a);
      InsertKeepsOffsets(arts[1..], a);
      var rest := Insert(arts[1..], a);
      forall i | 0 <= i < |rest| ensures arts[0].offset < rest[i].offset {
        if rest[i].offset != a.offset {
          var j := FindOffset(arts[1..], rest[i].offset);
        }
      }
      AscendingCons(arts[0], rest);
    } else {
      forall i | 0 <= i < |arts| ensures a.offset < arts[i].offset {
      }
      AscendingCons(a, arts);
    }
  }

  class WriteCache {
    const limit: int
    const pool: Pool
    var used: int
    var perFile: map<FileKey, FileBuf>

    ghost predicate Valid()
      reads this
    {
      forall k | k in perFile :: Keyed(perFile[k].articles)
    }

    constructor (limit: int, pool: Pool)
      ensures Valid() && perFile == map[] && used == 0 && this.limit == limit && this.pool == pool
    {
      this.limit := limit;
      this.pool := pool;
      used := 0;
      perFile := map[];
    }

    /** Take an article, unless caching is off or it has no bytes to cache. */
    method Buffer(key: FileKey, art: BufferedArticle) returns (taken: bool)
      requires Valid()
      modifies this, pool
      ensures Valid()
      ensures taken <==> limit > 0 && art.data.Len() > 0
      ensures !taken ==> perFile == old(perFile) && used == old(used) && pool.freed == old(pool.freed)
      ensures taken ==>
                var fb := BufAt(old(perFile), key).GetOr(EMPTY_BUF);
                && perFile == old(perFile)[key := PutArticle(fb, art)]
                && used == old(used) - fb.totalBytes + PutArticle(fb, art).totalBytes
                && pool.freed == old(pool.freed) + LoanAt(fb.articles, art.offset)
    {
      if limit <= 0 || art.data.Len() == 0 {
        return false;
      }
      var fb := EMPTY_BUF;
      if key in perFile {
        fb := perFile[key];
      }
      if art.offset in fb.articles {
        var existing := fb.articles[art.offset];
        used := used - existing.data.Len();
        fb := fb.(totalBytes := fb.totalBytes - existing.data.Len());
        pool.PutBuffer(existing.data);
      }
      fb := fb.(articles := fb.articles[art.offset := art], totalBytes := fb.totalBytes + art.data.Len());
      used := used + art.data.Len();
      perFile := perFile[key := fb];
      taken := true;
    }

    /** Drop whatever is buffered at one offset. */
    method DiscardAt(key: FileKey, off: int)
      requires Valid()
      modifies this, pool
      ensures Valid()
      ensures key !in old(perFile) ==> perFile == old(perFile) && used == old(used) && pool.freed == old(pool.freed)
      ensures key in old(perFile) ==>
                var fb := old(perFile)[key];
                && perFile == old(perFile)[key := DropArticle(fb, off)]
                && used == old(used) - fb.totalBytes + DropArticle(fb, off).totalBytes
                && pool.freed == old(pool.freed) + LoanAt(fb.articles, off)
    {
      if key !in perFile || off !in perFile[key].articles {
        return;
      }
      var fb := perFile[key];
      var existing := fb.articles[off];
      used := used - existing.data.Len();
      perFile := perFile[key := fb.(articles := fb.articles - {off}, totalBytes := fb.totalBytes - existing.data.Len())];
      pool.PutBuffer(existing.data);
    }

    /** The articles that lie end to end from the cursor. */
    method Scan(fb: FileBuf) returns (run: seq<BufferedArticle>, end: int)
      requires Keyed(fb.articles)
      ensures run == Contiguous(fb.articles, fb.writeCursor)
      ensures end == fb.writeCursor + |BytesOf(run)|
    {
      run, end := [], fb.writeCursor;
      ScanStarts(fb);
      while end in fb.articles && fb.articles[end].data.Len() > 0
        invariant Scanned(fb, run, end)
        decreases |fb.articles - Offsets(run)|
      {
        ScanOne(fb, run, end);
        run, end := run + [fb.articles[end]], end + fb.articles[end].data.Len();
      }
      ScanEnds(fb, run, end);
    }

    /** Merge the articles of a run, giving each buffer back and counting its bytes out. */
    method Merge(fb: FileBuf, arts: seq<BufferedArticle>) returns (data: seq<byte>, parts: seq<RunPart>, left: FileBuf)
      modifies this`used, pool
      ensures data == BytesOf(arts) && parts == PartsOf(arts)
      ensures left == FileBuf(fb.articles - Offsets(arts), fb.writeCursor, fb.totalBytes - |data|)
      ensures used == old(used) - |data| && pool.freed == old(pool.freed) + LoansOf(arts)
    {
      data, parts, left := [], [], fb;
      MergeStarts(fb, arts);
      for i := 0 to |arts|
        invariant Merged(fb, arts, i, data, parts, left)
        invariant used == old(used) - |data|
        invariant pool.freed == old(pool.freed) + LoansOf(arts[..i])
      {
        MergeOne(fb, arts, i, data, parts, left);
        data := data + arts[i].data.Bytes();
        parts := parts + [PartOf(arts[i])];
        left := left.(articles := left.articles - {arts[i].offset}, totalBytes := left.totalBytes - arts[i].data.Len());
        used := used - arts[i].data.Len();
        pool.PutBuffer(arts[i].data);
      }
      assert arts[..|arts|] == arts;
    }

    /** A long enough run from the file's cursor becomes one write, and its articles leave the cache. */
    method BuildContiguousRun(key: FileKey, minSize: int) returns (run: Option<FlushRun>)
      requires Valid() && key in perFile
      modifies this, pool
      ensures Valid()
      ensures var fb := old(perFile)[key];
              && run == BuildRun(fb, minSize).0
              && perFile == old(perFile)[key := BuildRun(fb, minSize).1]
              && used == old(used) - fb.totalBytes + BuildRun(fb, minSize).1.totalBytes
              && pool.freed == old(pool.freed)
                             + if run.Some? then LoansOf(Contiguous(fb.articles, fb.writeCursor)) else multiset{}
    {
      var fb := perFile[key];
      if fb.articles == map[] {
        return None;
      }
      var arts, end := Scan(fb);
      if end - fb.writeCursor < minSize {
        return None;
      }
      var data, parts, left := Merge(fb, arts);
      perFile := perFile[key := left.(writeCursor := end)];
      run := Some(FlushRun(fb.writeCursor, data, parts));
    }

    method FlushContiguous(key: FileKey) returns (run: Option<FlushRun>)
      requires Valid()
      modifies this, pool
      ensures Valid()
      ensures key !in old(perFile) ==>
                run == None && perFile == old(perFile) && used == old(used) && pool.freed == old(pool.freed)
      ensures key in old(perFile) ==>
                var fb := old(perFile)[key];
                && run == BuildRun(fb, CONTIGUOUS_RUN_SIZE).0
                && perFile == old(perFile)[key := BuildRun(fb, CONTIGUOUS_RUN_SIZE).1]
                && used == old(used) - fb.totalBytes + BuildRun(fb, CONTIGUOUS_RUN_SIZE).1.totalBytes
                && pool.freed == old(pool.freed)
                               + if run.Some? then LoansOf(Contiguous(fb.articles, fb.writeCursor)) else multiset{}
    {
      if key !in perFile {
        return None;
      }
      run := BuildContiguousRun(key, CONTIGUOUS_RUN_SIZE);
    }

    method InPressure() returns (p: bool)
      ensures p <==> limit > 0 && used * 10 > limit * 9
    {
      if limit <= 0 {
        return false;
      }
      p := used * 10 > limit * 9;
    }

    /** A file's articles in offset order, counted out, and where its cursor comes to be. */
    method Collect(fb: FileBuf) returns (arts: seq<BufferedArticle>, cursor: int)
      requires Accounted(fb)
      modifies this`used
      ensures arts == Sorted(fb.articles) && FileBuf(map[], cursor, 0) == Drained(fb)
      ensures used == old(used) - fb.totalBytes
    {
      var left := fb.articles;
      arts, cursor := [], fb.writeCursor;
      NothingDrained(fb);
      while left.Keys != {}
        invariant Draining(fb, left, arts, cursor)
        invariant used == old(used) - fb.totalBytes + BytesIn(left)
        decreases |left|
      {
        HasElement(left.Keys);
        var off :| off in left.Keys;
        var art := left[off];
        DrainOne(fb, left, arts, cursor, off);
        BytesInRemove(left, off);
        arts := Insert(arts, art);
        used := used - art.data.Len();
        if off + art.data.Len() > cursor {
          cursor := off + art.data.Len();
        }
        left := left - {off};
      }
      assert left == map[];
      NothingLeft(fb, arts, cursor);
    }

    /** Take out everything a file has buffered, in offset order, and move its cursor past all of it. */
    method DrainFile(key: FileKey) returns (arts: seq<BufferedArticle>)
      requires Valid() && (key in perFile ==> Accounted(perFile[key]))
      modifies this
      ensures Valid()
      ensures key !in old(perFile) ==> arts == [] && perFile == old(perFile) && used == old(used)
      ensures key in old(perFile) ==>
                var fb := old(perFile)[key];
                && arts == Sorted(fb.articles)
                && perFile == old(perFile)[key := Drained(fb)]
                && used == old(used) - fb.totalBytes
    {
      if key !in perFile {
        return [];
      }
      var cursor;
      arts, cursor := Collect(perFile[key]);
      perFile := perFile[key := FileBuf(map[], cursor, 0)];
    }

    /** The largest file's articles; which one, among equals, is the order of the range. None, if none holds any. */
    method ForceFlushLargest() returns (key: FileKey, arts: seq<BufferedArticle>)
      requires Valid() && forall k | k in perFile :: Accounted(perFile[k])
      modifies this
      ensures Valid()
      ensures arts == [] ==>
                perFile == old(perFile) && used == old(used) && forall k | k in perFile :: perFile[k].totalBytes <= 0
      ensures arts != [] ==>
                && key in old(perFile) && old(perFile)[key].totalBytes > 0 && old(perFile)[key].articles != map[]
                && (forall k | k in old(perFile) :: old(perFile)[k].totalBytes <= old(perFile)[key].totalBytes)
                && arts == Sorted(old(perFile)[key].articles)
                && perFile == old(perFile)[key := Drained(old(perFile)[key])]
                && used == old(used) - old(perFile)[key].totalBytes
    {
      var largest, largestBytes := FileKey(0, 0), 0;
      var left := perFile.Keys;
      while left != {}
        invariant left <= perFile.Keys && 0 <= largestBytes
        invariant largestBytes > 0 ==> largest in perFile && perFile[largest].totalBytes == largestBytes
        invariant forall k | k in perFile && k !in left :: perFile[k].totalBytes <= largestBytes
        decreases |left|
      {
        var k :| k in left;
        left := left - {k};
        if perFile[k].totalBytes > largestBytes {
          largest, largestBytes := k, perFile[k].totalBytes;
        }
      }
      key := largest;
      if largestBytes == 0 {
        arts := [];
        return;
      }
      BytesMeanArticles(perFile[largest]);
      arts := DrainFile(largest);
    }

    /** Drop a file's entry, with whatever it still holds. */
    method Forget(key: FileKey)
      requires Valid()
      modifies this, pool
      ensures Valid() && perFile == old(perFile) - {key}
      ensures used == old(used) - TotalOf(BufAt(old(perFile), key))
      ensures pool.freed == old(pool.freed) + (if key in old(perFile) then HeldBy(old(perFile)[key].articles) else multiset{})
    {
      if key !in perFile {
        return;
      }
      ghost var all := perFile[key].articles;
      var left := perFile[key].articles;
      while left.Keys != {}
        invariant perFile == old(perFile) && used == old(used)
        invariant pool.freed + HeldBy(left) == old(pool.freed) + HeldBy(all)
        decreases |left|
      {
        HasElement(left.Keys);
        var off :| off in left.Keys;
        BytesInRemove(left, off);
        pool.PutBuffer(left[off].data);
        left := left - {off};
      }
      assert left == map[];
      NothingHeld();
      used := used - perFile[key].totalBytes;
      perFile := perFile - {key};
    }
  }

  lemma BytesMeanArticles(fb: FileBuf)
    requires Accounted(fb) && fb.totalBytes > 0
    ensures fb.articles != map[] && Sorted(fb.articles) != []
  {
    assert Sizes(map[]) == map[];
  }

  /** A scan under way: the run so far, and the rest of it still in the buffer. */
  ghost predicate Scanned(fb: FileBuf, run: seq<BufferedArticle>, end: int) {
    && Tiles(run, fb.writeCursor) && end == fb.writeCursor + |BytesOf(run)|
    && run + Contiguous(fb.articles - Offsets(run), end) == Contiguous(fb.articles, fb.writeCursor)
  }

  lemma ScanStarts(fb: FileBuf)
    ensures Scanned(fb, [], fb.writeCursor)
  {
    assert fb.articles - Offsets([]) == fb.articles;
  }

  lemma OneMoveOver(run: seq<BufferedArticle>, art: BufferedArticle, rest: seq<BufferedArticle>, found: seq<BufferedArticle>)
    requires found == [art] + rest
    ensures run + found == (run + [art]) + rest
  {
  }

  lemma OneFewer(m: Articles, run: seq<BufferedArticle>, art: BufferedArticle)
    ensures m - Offsets(run + [art]) == m - Offsets(run) - {art.offset}
  {
    OneMore(run, art);
  }

  lemma FirstFound(left: Articles, end: int)
    requires end in left && left[end].data.Len() > 0
    ensures Contiguous(left, end) == [left[end]] + Contiguous(left - {end}, end + left[end].data.Len())
  {
  }

  lemma ScanOne(fb: FileBuf, run: seq<BufferedArticle>, end: int)
    requires Keyed(fb.articles) && Scanned(fb, run, end) && end in fb.articles
    ensures var art := fb.articles[end];
            && Scanned(fb, run + [art], end + art.data.Len())
            && |fb.articles - Offsets(run + [art])| < |fb.articles - Offsets(run)|
  {
    var left, art := fb.articles - Offsets(run), fb.articles[end];
    TilesEndBefore(run, fb.writeCursor);
    TilesExtend(run, fb.writeCursor, art);
    OneFewer(fb.articles, run, art);
    FirstFound(left, end);
    OneMoveOver(run, art, Contiguous(left - {end}, end + art.data.Len()), Contiguous(left, end));
  }

  lemma ScanEnds(fb: FileBuf, run: seq<BufferedArticle>, end: int)
    requires Scanned(fb, run, end) && (end !in fb.articles || fb.articles[end].data.Len() == 0)
    ensures run == Contiguous(fb.articles, fb.writeCursor) && end == fb.writeCursor + |BytesOf(run)|
  {
    assert Contiguous(fb.articles - Offsets(run), end) == [];
    assert run + [] == run;
  }

  /** A merge under way: the bytes and parts of the articles taken so far, and the buffer without them. */
  ghost predicate Merged(fb: FileBuf, arts: seq<BufferedArticle>, i: nat, data: seq<byte>, parts: seq<RunPart>, left: FileBuf)
    requires i <= |arts|
  {
    && data == BytesOf(arts[..i]) && parts == PartsOf(arts[..i])
    && left == FileBuf(fb.articles - Offsets(arts[..i]), fb.writeCursor, fb.totalBytes - |data|)
  }

  lemma MergeStarts(fb: FileBuf, arts: seq<BufferedArticle>)
    ensures Merged(fb, arts, 0, [], [], fb) && LoansOf(arts[..0]) == multiset{}
  {
    assert arts[..0] == [];
    assert fb.articles - Offsets([]) == fb.articles;
  }

  lemma MergeOne(fb: FileBuf, arts: seq<BufferedArticle>, i: nat, data: seq<byte>, parts: seq<RunPart>, left: FileBuf)
    requires i < |arts| && Merged(fb, arts, i, data, parts, left)
    ensures Merged(fb, arts, i + 1, data + arts[i].data.Bytes(), parts + [PartOf(arts[i])],
                   left.(articles := left.articles - {arts[i].offset}, totalBytes := left.totalBytes - arts[i].data.Len()))
    ensures LoansOf(arts[..i + 1]) == LoansOf(arts[..i]) + arts[i].data.Loan()
  {
    TakeOneMore(arts, i);
    assert fb.articles - Offsets(arts[..i]) - {arts[i].offset} == fb.articles - Offsets(arts[..i + 1]);
  }

  lemma TilesEndBefore(run: seq<BufferedArticle>, c: int)
    requires Tiles(run, c)
    ensures c + |BytesOf(run)| !in Offsets(run)
  {
    TilesAreDistinct(run, c);
    forall i | 0 <= i < |run| ensures run[i].offset < c + |BytesOf(run)| {
      TilesStayInside(run, c, i);
      assert run[i] in run;
    }
    if c + |BytesOf(run)| in Offsets(run) {
      var i := FindOffset(run, c + |BytesOf(run)|);
      assert false;
    }
  }

  lemma {:induction false} TilesExtend(run: seq<BufferedArticle>, c: int, a: BufferedArticle)
    requires Tiles(run, c) && a.offset == c + |BytesOf(run)| && a.data.Len() > 0
    ensures Tiles(run + [a], c) && |BytesOf(run + [a])| == |BytesOf(run)| + a.data.Len()
    decreases |run|
  {
    if run == [] {
      assert [] + [a] == [a] && [a][1..] == [];
    } else {
      assert (run + [a])[1..] == run[1..] + [a];
      TilesExtend(run[1..], run[0].End(), a);
    }
  }

  lemma {:induction false} OneMoreBytes(arts: seq<BufferedArticle>, a: BufferedArticle)
    ensures BytesOf(arts + [a]) == BytesOf(arts) + a.data.Bytes()
    decreases |arts|
  {
    if arts == [] {
      assert [] + [a] == [a] && [a][1..] == [];
    } else {
      assert (arts + [a])[1..] == arts[1..] + [a];
      OneMoreBytes(arts[1..], a);
    }
  }

  lemma {:induction false} OneMore(arts: seq<BufferedArticle>, a: BufferedArticle)
    ensures LoansOf(arts + [a]) == LoansOf(arts) + a.data.Loan()
    ensures Offsets(arts + [a]) == Offsets(arts) + {a.offset}
    decreases |arts|
  {
    if arts == [] {
      assert [] + [a] == [a] && [a][1..] == [];
    } else {
      assert (arts + [a])[1..] == arts[1..] + [a];
      OneMore(arts[1..], a);
    }
  }

  lemma TakeOneMore(arts: seq<BufferedArticle>, i: nat)
    requires i < |arts|
    ensures BytesOf(arts[..i + 1]) == BytesOf(arts[..i]) + arts[i].data.Bytes()
    ensures PartsOf(arts[..i + 1]) == PartsOf(arts[..i]) + [PartOf(arts[i])]
    ensures LoansOf(arts[..i + 1]) == LoansOf(arts[..i]) + arts[i].data.Loan()
    ensures Offsets(arts[..i + 1]) == Offsets(arts[..i]) + {arts[i].offset}
  {
    assert arts[..i + 1] == arts[..i] + [arts[i]];
    OneMoreBytes(arts[..i], arts[i]);
    OneMore(arts[..i], arts[i]);
  }

  /** A drain under way: what has been collected, and what is left to collect. */
  ghost predicate Draining(fb: FileBuf, left: Articles, arts: seq<BufferedArticle>, cursor: int) {
    && left == fb.articles - Offsets(arts) && Offsets(arts) <= fb.articles.Keys
    && Holds(fb.articles, arts) && Ascending(arts)
    && IsFrontier(fb.articles - left.Keys, fb.writeCursor, cursor)
  }

  lemma NothingDrained(fb: FileBuf)
    ensures Draining(fb, fb.articles, [], fb.writeCursor)
  {
    assert fb.articles - Offsets([]) == fb.articles;
    assert fb.articles - fb.articles.Keys == map[];
  }

  lemma DrainOne(fb: FileBuf, left: Articles, arts: seq<BufferedArticle>, cursor: int, off: int)
    requires Keyed(fb.articles) && Draining(fb, left, arts, cursor) && off in left
    ensures var end := off + left[off].data.Len();
            Draining(fb, left - {off}, Insert(arts, left[off]), if end > cursor then end else cursor)
  {
    var art := left[off];
    InsertKeepsOffsets(arts, art);
    InsertHolds(fb.articles, arts, art);
    InsertAscends(arts, art);
    FrontierGrows(fb.articles, left, fb.writeCursor, cursor, off);
    assert fb.articles - (Offsets(arts) + {off}) == left - {off};
  }

  lemma FrontierGrows(m: Articles, left: Articles, from: int, cursor: int, off: int)
    requires Keyed(m) && off in left && left.Keys <= m.Keys && left[off] == m[off]
    requires IsFrontier(m - left.Keys, from, cursor)
    ensures var end := off + m[off].data.Len();
            IsFrontier(m - (left - {off}).Keys, from, if end > cursor then end else cursor)
  {
    var before, after := m - left.Keys, m - (left - {off}).Keys;
    assert forall o :: o in after <==> o in before || o == off;
    if cursor != from {
      var o :| o in before && before[o].End() == cursor;
      assert after[o].End() == cursor;
    }
    assert after[off].End() == off + m[off].data.Len();
  }

  lemma NothingLeft(fb: FileBuf, arts: seq<BufferedArticle>, cursor: int)
    requires Accounted(fb) && Draining(fb, map[], arts, cursor)
    ensures arts == Sorted(fb.articles) && FileBuf(map[], cursor, 0) == Drained(fb)
    ensures BytesIn(map[]) == 0
  {
    var none: Articles := map[];
    assert fb.articles - none.Keys == fb.articles;
    forall o | o in fb.articles ensures o in Offsets(arts) {
      assert o !in fb.articles - Offsets(arts);
    }
    assert Offsets(arts) == fb.articles.Keys;
    SortedIsUnique(fb.articles, arts);
    FrontierIsUnique(fb.articles, fb.writeCursor, cursor);
    assert Sizes(map[]) == map[];
  }
}
