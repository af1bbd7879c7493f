/** The write cache changes when bytes are written, never which. */
module Transparency {
  import opened Types
  import opened FileBuffer
  import opened Writing
  import opened WriterInvariant
  import opened WriterRuns
  import opened Settlement

  /** What one article of the file says, whoever delivers it and however often. */
  datatype Segment = Segment(offset: int, bytes: seq<byte>)
  {
    predicate Covers(k: int) {
      offset <= k < offset + |bytes|
    }
  }

  type Catalog = int -> Segment

  /** Articles begin at different offsets and share no byte. */
  ghost predicate Separate(cat: Catalog) {
    forall i, j | i != j ::
      cat(i).offset != cat(j).offset && forall k | cat(i).Covers(k) :: !cat(j).Covers(k)
  }

  ghost predicate Delivers(a: BufferedArticle, cat: Catalog) {
    a.offset == cat(a.id).offset && a.data.Bytes() == cat(a.id).bytes
  }

  /** Every successful arrival carries its article; the file is not cut short. */
  ghost predicate Plain(op: FileOp, cat: Catalog) {
    !op.TruncateFile? && (op.Arrive? ==> Delivers(op.a, cat))
  }

  ghost predicate NeverFaults(d: Disk) {
    forall n: nat :: d.env(n).Wrote?
  }

  /** The content is the base overlaid with exactly these articles. */
  ghost predicate Shows(c: Content, base: Content, cat: Catalog, ids: set<int>) {
    && (forall i, k | i in ids && cat(i).Covers(k) :: k in c && c[k] == cat(i).bytes[k - cat(i).offset])
    && (forall k | (forall i | i in ids :: !cat(i).Covers(k)) :: (k in c <==> k in base) && (k in c ==> c[k] == base[k]))
  }

  lemma ShowsIsUnique(c: Content, d: Content, base: Content, cat: Catalog, ids: set<int>)
    requires Shows(c, base, cat, ids) && Shows(d, base, cat, ids)
    ensures c == d
  {
    forall k ensures (k in c <==> k in d) && (k in c ==> c[k] == d[k]) {
      if i :| i in ids && cat(i).Covers(k) {
      } else {
        assert forall i | i in ids :: !cat(i).Covers(k);
      }
    }
  }

  lemma PatchShowsIt(c: Content, base: Content, cat: Catalog, ids: set<int>, id: int)
    requires Separate(cat) && Shows(c, base, cat, ids)
    ensures forall i, k | i in ids + {id} && cat(i).Covers(k) ::
              var d := c + Patch(cat(id).offset, cat(id).bytes);
              k in d && d[k] == cat(i).bytes[k - cat(i).offset]
  {
  }

  lemma PatchShows(c: Content, base: Content, cat: Catalog, ids: set<int>, id: int)
    requires Separate(cat) && Shows(c, base, cat, ids)
    ensures Shows(c + Patch(cat(id).offset, cat(id).bytes), base, cat, ids + {id})
  {
    var d := c + Patch(cat(id).offset, cat(id).bytes);
    PatchShowsIt(c, base, cat, ids, id);
    forall k | (forall i | i in ids + {id} :: !cat(i).Covers(k))
      ensures (k in d <==> k in base) && (k in d ==> d[k] == base[k])
    {
      assert !cat(id).Covers(k);
      assert forall i | i in ids :: i in ids + {id};
    }
  }

  // ----- writing every article straight to its place

  function Direct(c: Content, cat: Catalog, order: seq<int>): Content
    decreases |order|
  {
    if order == [] then c
    else
      var id := order[|order| - 1];
      Direct(c, cat, order[..|order| - 1]) + Patch(cat(id).offset, cat(id).bytes)
  }

  ghost function Elements(order: seq<int>): set<int> {
    set i | i in order
  }

  lemma {:induction false} DirectShows(base: Content, cat: Catalog, order: seq<int>)
    requires Separate(cat)
    ensures Shows(Direct(base, cat, order), base, cat, Elements(order))
    decreases |order|
  {
    if order == [] {
    } else {
      var most := order[..|order| - 1];
      var id := order[|order| - 1];
      DirectShows(base, cat, most);
      PatchShows(Direct(base, cat, most), base, cat, Elements(most), id);
      assert order == most + [id];
      assert Elements(order) == Elements(most) + {id};
    }
  }

  // ----- the state of a run without faults

  ghost function NotedIds(noted: seq<WrittenArticle>): set<int> {
    set r | r in noted :: r.artIdx
  }

  lemma NotedIdsGrow(noted: seq<WrittenArticle>, r: WrittenArticle)
    ensures NotedIds(noted + [r]) == NotedIds(noted) + {r.artIdx}
  {
  }

  /** Every offset is owned by the one article that belongs there. */
  ghost predicate InPlace(w: Writer, cat: Catalog) {
    forall o | o in w.acceptedAt :: cat(w.acceptedAt[o].id).offset == o
  }

  ghost predicate FlightDelivers(f: File, hand: seq<BufferedArticle>, cat: Catalog) {
    forall a | InFlight(f, hand, a) :: Delivers(a, cat)
  }

  ghost predicate Faithful(w: Writer, base: Content, cat: Catalog) {
    NeverFaults(w.handle) && InPlace(w, cat) && Shows(w.handle.bytes, base, cat, NotedIds(w.noted))
  }

  ghost predicate Clean(f: File, hand: seq<BufferedArticle>, base: Content, cat: Catalog) {
    Inv(f, hand) && FlightDelivers(f, hand, cat) && Faithful(f.w, base, cat)
  }

  /** Every article received in range is in the file or on its way there. */
  ghost predicate Arrived(f: File, hand: seq<BufferedArticle>, ids: set<int>) {
    && (forall id | id in ids :: Landed(f.w, id) || Flying(f, hand, id))
    && (forall a | InFlight(f, hand, a) :: a.id in ids)
    && NotedIds(f.w.noted) <= ids
  }

  // ----- writes

  lemma NoteKeepsFaithful(w: Writer, a: BufferedArticle, base: Content, cat: Catalog)
    requires NeverFaults(w.handle) && InPlace(w, cat) && Delivers(a, cat)
    requires Shows(w.handle.bytes, base, cat, NotedIds(w.noted) + {a.id})
    ensures Faithful(NoteWritten(w, PartOf(a)), base, cat)
  {
    NotedIdsGrow(w.noted, WrittenArticle(a.id, a.offset, a.data.Len(), a.crc32));
  }

  lemma WriteOneKeepsFaithful(f: File, a: BufferedArticle, base: Content, cat: Catalog)
    requires Separate(cat) && Faithful(f.w, base, cat) && Delivers(a, cat)
    ensures WriteOne(f, a).1 && Faithful(WriteOne(f, a).0.w, base, cat)
  {
    var d := WriteAt(f.w.handle, a.data.Bytes(), a.offset).0;
    assert f.w.handle.env(|f.w.handle.log|).Wrote?;
    PatchShows(f.w.handle.bytes, base, cat, NotedIds(f.w.noted), a.id);
    NoteKeepsFaithful(f.w.(handle := d), a, base, cat);
  }

  lemma ArrivedNarrows(f: File, g: File, hand: seq<BufferedArticle>, d: Disk, ids: set<int>)
    requires Inv(f, hand) && hand != [] && Arrived(f, hand, ids)
    requires g.w == NoteWritten(f.w.(handle := d), PartOf(hand[0])) && g.buf == f.buf
    ensures Arrived(g, hand[1..], ids)
  {
    var a := hand[0];
    assert InFlight(f, hand, a);
    assert SettledAt(g.w, a.offset);
    forall id | id in ids ensures Landed(g.w, id) || Flying(g, hand[1..], id) {
      if id != a.id {
        if Landed(f.w, id) {
          var o :| SettledAt(f.w, o) && f.w.acceptedAt[o].id == id;
          assert SettledAt(g.w, o);
        } else {
          Widen(f, g, hand, id);
        }
      }
    }
    forall b | InFlight(g, hand[1..], b) ensures b.id in ids {
      Narrow(f, g, hand, b);
    }
    NotedIdsGrow(f.w.noted, WrittenArticle(a.id, a.offset, a.data.Len(), a.crc32));
  }

  lemma DeliveryNarrows(f: File, g: File, hand: seq<BufferedArticle>, cat: Catalog)
    requires hand != [] && g.buf == f.buf && HandIsFresh(f, hand) && FlightDelivers(f, hand, cat)
    ensures FlightDelivers(g, hand[1..], cat)
  {
  }

  lemma {:induction false} WriteInOrderIsClean(f: File, arts: seq<BufferedArticle>, base: Content, cat: Catalog, ids: set<int>)
    requires Separate(cat) && Clean(f, arts, base, cat) && Arrived(f, arts, ids)
    ensures Clean(WriteInOrder(f, arts).0, [], base, cat) && Arrived(WriteInOrder(f, arts).0, [], ids)
    decreases |arts|
  {
    if arts == [] {
    } else {
      assert InFlight(f, arts, arts[0]);
      var g := WriteOne(f, arts[0]).0;
      WriteOneKeepsInv(f, arts);
      WriteOneKeepsFaithful(f, arts[0], base, cat);
      DeliveryNarrows(f, g, arts, cat);
      ArrivedNarrows(f, g, arts, g.w.handle, ids);
      WriteInOrderIsClean(g, arts[1..], base, cat, ids);
    }
  }

  lemma {:induction false} RunShows(c: Content, hand: seq<BufferedArticle>, start: int, base: Content, cat: Catalog, ids: set<int>)
    requires Separate(cat) && Shows(c, base, cat, ids) && Tiles(hand, start)
    requires forall i | 0 <= i < |hand| :: Delivers(hand[i], cat)
    ensures Shows(c + Patch(start, BytesOf(hand)), base, cat, ids + IdsOf(hand))
    decreases |hand|
  {
    if hand == [] {
      assert ids + IdsOf(hand) == ids;
      assert c + Patch(start, []) == c;
    } else {
      var a := hand[0];
      var d := c + Patch(a.offset, a.data.Bytes());
      assert Delivers(a, cat);
      PatchShows(c, base, cat, ids, a.id);
      RunShows(d, hand[1..], a.End(), base, cat, ids + {a.id});
      PatchRun(c, a, BytesOf(hand[1..]));
      assert ids + IdsOf(hand) == ids + {a.id} + IdsOf(hand[1..]);
    }
  }

  /** m holds p from off on, and nothing else. */
  ghost predicate Paints(m: Content, off: int, p: seq<byte>) {
    && (forall k :: k in m <==> off <= k < off + |p|)
    && forall k | k in m :: m[k] == p[k - off]
  }

  lemma PatchPaints(off: int, p: seq<byte>)
    ensures Paints(Patch(off, p), off, p)
  {
  }

  lemma PaintsJoin(c: Content, x: Content, y: Content, z: Content, off: int, p: seq<byte>, q: seq<byte>)
    requires Paints(x, off, p + q) && Paints(y, off, p) && Paints(z, off + |p|, q)
    ensures c + x == c + y + z
  {
    forall k | k in x ensures x[k] == if k in z then z[k] else y[k] {
      assert (p + q)[k - off] == if k in z then q[k - off - |p|] else p[k - off];
    }
    assert forall k :: k in x <==> k in y || k in z;
  }

  lemma PatchRun(c: Content, a: BufferedArticle, rest: seq<byte>)
    ensures c + Patch(a.offset, a.data.Bytes() + rest)
         == c + Patch(a.offset, a.data.Bytes()) + Patch(a.End(), rest)
  {
    PatchPaints(a.offset, a.data.Bytes() + rest);
    PatchPaints(a.offset, a.data.Bytes());
    PatchPaints(a.End(), rest);
    PaintsJoin(c, Patch(a.offset, a.data.Bytes() + rest), Patch(a.offset, a.data.Bytes()), Patch(a.End(), rest),
               a.offset, a.data.Bytes(), rest);
  }

  lemma NoteOneStaysInPlace(f: File, hand: seq<BufferedArticle>, cat: Catalog)
    requires hand != [] && FlightDelivers(f, hand, cat) && InPlace(f.w, cat)
    ensures var w := NoteWritten(f.w, PartOf(hand[0]));
            InPlace(w, cat) && NotedIds(w.noted) + IdsOf(hand[1..]) == NotedIds(f.w.noted) + IdsOf(hand)
  {
  }

  lemma {:induction false} NoteAllIsClean(f: File, hand: seq<BufferedArticle>, base: Content, cat: Catalog, ids: set<int>)
    requires Inv(f, hand) && FlightDelivers(f, hand, cat) && NeverFaults(f.w.handle) && InPlace(f.w, cat)
    requires Shows(f.w.handle.bytes, base, cat, NotedIds(f.w.noted) + IdsOf(hand)) && Arrived(f, hand, ids)
    ensures Clean(f.(w := NoteAll(f.w, PartsOf(hand))), [], base, cat)
    ensures Arrived(f.(w := NoteAll(f.w, PartsOf(hand))), [], ids)
    decreases |hand|
  {
    if hand == [] {
      assert NotedIds(f.w.noted) + IdsOf(hand) == NotedIds(f.w.noted);
    } else {
      var g := f.(w := NoteWritten(f.w, PartOf(hand[0])));
      NoteKeepsInv(f, g, hand, f.w.handle);
      DeliveryNarrows(f, g, hand, cat);
      ArrivedNarrows(f, g, hand, f.w.handle, ids);
      NoteOneStaysInPlace(f, hand, cat);
      PartsTail(hand);
      NoteAllIsClean(g, hand[1..], base, cat, ids);
    }
  }

  // ----- operations

  lemma TakeOutIsClean(f: File, g: File, hand: seq<BufferedArticle>, base: Content, cat: Catalog, ids: set<int>)
    requires Clean(f, [], base, cat) && Arrived(f, [], ids) && f.buf.Some? && g.buf.Some? && g.w == f.w
    requires Holds(f.Articles(), hand) && DistinctOffsets(hand)
    requires g.buf.value.articles == f.Articles() - Offsets(hand) && Accounted(g.buf.value)
    ensures Clean(g, hand, base, cat) && Arrived(g, hand, ids)
  {
    HandOverKeepsInv(f, g, hand);
    forall a ensures InFlight(g, hand, a) <==> InFlight(f, [], a) {
      HandOverSameFlight(f, g, hand, a);
    }
    SameFlightArrived(f, [], g, hand, ids);
  }

  lemma SameFlightArrived(f: File, from: seq<BufferedArticle>, g: File, to: seq<BufferedArticle>, ids: set<int>)
    requires Arrived(f, from, ids) && g.w == f.w
    requires forall a :: InFlight(g, to, a) <==> InFlight(f, from, a)
    ensures Arrived(g, to, ids)
  {
  }

  lemma FlushAllIsClean(f: File, base: Content, cat: Catalog, ids: set<int>)
    requires Separate(cat) && Clean(f, [], base, cat) && Arrived(f, [], ids)
    ensures Clean(FlushAll(f).0, [], base, cat) && Arrived(FlushAll(f).0, [], ids)
  {
    if f.buf.Some? {
      var arts := Sorted(f.Articles());
      var g := f.(buf := Some(Drained(f.buf.value)));
      SortedIsSorted(f.Articles());
      DrainKeepsAccount(f.buf.value);
      AllTaken(f.Articles(), arts);
      TakeOutIsClean(f, g, arts, base, cat, ids);
      WriteInOrderIsClean(g, arts, base, cat, ids);
    }
  }

  lemma WriteRunIsClean(f: File, hand: seq<BufferedArticle>, run: FlushRun, base: Content, cat: Catalog, ids: set<int>)
    requires Separate(cat) && Clean(f, hand, base, cat) && Arrived(f, hand, ids)
    requires Tiles(hand, run.offset) && run.data == BytesOf(hand) && run.parts == PartsOf(hand)
    ensures Clean(WriteRun(f, run).0, [], base, cat) && Arrived(WriteRun(f, run).0, [], ids)
  {
    var d := WriteAt(f.w.handle, run.data, run.offset).0;
    var g := f.(w := f.w.(handle := d));
    assert f.w.handle.env(|f.w.handle.log|).Wrote?;
    SameRecordKeepsInv(f, g, hand);
    forall i | 0 <= i < |hand| ensures Delivers(hand[i], cat) {
      assert InFlight(f, hand, hand[i]);
    }
    RunShows(f.w.handle.bytes, hand, run.offset, base, cat, NotedIds(f.w.noted));
    NewContentSameFlight(f, g, hand, cat, ids);
    NoteAllIsClean(g, hand, base, cat, ids);
  }

  lemma NewContentSameFlight(f: File, g: File, hand: seq<BufferedArticle>, cat: Catalog, ids: set<int>)
    requires FlightDelivers(f, hand, cat) && Arrived(f, hand, ids)
    requires g == f.(w := f.w.(handle := g.w.handle))
    ensures FlightDelivers(g, hand, cat) && Arrived(g, hand, ids)
  {
  }

  lemma FlushContiguousIsClean(f: File, base: Content, cat: Catalog, ids: set<int>)
    requires Separate(cat) && Clean(f, [], base, cat) && Arrived(f, [], ids)
    ensures Clean(FlushContiguous(f).0, [], base, cat) && Arrived(FlushContiguous(f).0, [], ids)
  {
    if f.buf.Some? && BuildRun(f.buf.value, CONTIGUOUS_RUN_SIZE).0.Some? {
      var fb := f.buf.value;
      var hand := Contiguous(fb.articles, fb.writeCursor);
      RunTaken(fb, CONTIGUOUS_RUN_SIZE);
      RunKeepsAccount(fb, CONTIGUOUS_RUN_SIZE);
      var (r, fb') := BuildRun(fb, CONTIGUOUS_RUN_SIZE);
      var g := f.(buf := Some(fb'), freed := f.freed + LoansOf(hand));
      TakeOutIsClean(f, g, hand, base, cat, ids);
      WriteRunIsClean(g, hand, r.value, base, cat, ids);
    }
  }

  /** With one article per offset nothing is ever displaced or refused as settled. */
  lemma NobodyElseOwns(w: Writer, a: BufferedArticle, cat: Catalog)
    requires Separate(cat) && InPlace(w, cat) && Delivers(a, cat)
    ensures a.offset in w.acceptedAt ==> w.acceptedAt[a.offset].id == a.id
  {
  }

  lemma OwnIsClean(f: File, a: BufferedArticle, base: Content, cat: Catalog, ids: set<int>)
    requires InvBut(f, a.id) && a.offset !in f.w.acceptedAt && Delivers(a, cat)
    requires FlightDelivers(f, [], cat) && Faithful(f.w, base, cat) && Arrived(f, [], ids)
    ensures var g := Own(f, a.offset, a.id);
            FlightDelivers(g, [], cat) && Faithful(g.w, base, cat) && Arrived(g, [], ids)
  {
    var g := Own(f, a.offset, a.id);
    forall b ensures InFlight(g, [], b) <==> InFlight(f, [], b) {
    }
    forall id | id in ids ensures Landed(g.w, id) || Flying(g, [], id) {
      StillThere(f, g, id);
    }
  }

  /** The arrival joins what is in flight. */
  lemma HoldIsClean(g: File, a: BufferedArticle, base: Content, cat: Catalog, ids: set<int>)
    requires InvBut(g, a.id) && a.offset !in g.Articles() && Delivers(a, cat)
    requires a.offset in g.w.acceptedAt && g.w.acceptedAt[a.offset] == OffsetOwner(a.id, false)
    requires FlightDelivers(g, [], cat) && Faithful(g.w, base, cat) && Arrived(g, [], ids)
    ensures Clean(g, [a], base, cat) && Arrived(g, [a], ids + {a.id})
  {
    HoldArrival(g, a);
    forall b | InFlight(g, [a], b) ensures b == a || InFlight(g, [], b) {
      if b != a { assert InFlight(g, [], b); }
    }
    forall id | id in ids + {a.id} ensures Landed(g.w, id) || Flying(g, [a], id) {
      if id == a.id {
        assert InFlight(g, [a], a);
      } else if Flying(g, [], id) {
        var b :| InFlight(g, [], b) && b.id == id;
        assert InFlight(g, [a], b);
      }
    }
  }

  lemma AcceptIsClean(f: File, limit: int, a: BufferedArticle, base: Content, cat: Catalog, ids: set<int>)
    requires Separate(cat) && InvBut(f, a.id) && Delivers(a, cat)
    requires FlightDelivers(f, [], cat) && Faithful(f.w, base, cat) && Arrived(f, [], ids)
    ensures var g := Accept(f, limit, a).0;
            Clean(g, [], base, cat) && Arrived(g, [], ids + {a.id})
  {
    var g := Claim(f, a.offset, a.id);
    var all := ids + {a.id};
    NobodyElseOwns(f.w, a, cat);
    ClaimKeepsInvBut(f, a.offset, a.id);
    if a.offset !in f.w.acceptedAt {
      OwnIsClean(f, a, base, cat, ids);
    }
    HoldIsClean(g, a, base, cat, ids);
    if limit > 0 && a.data.Len() > 0 {
      var h := g.(buf := Some(PutArticle(g.Buffer(), a)), freed := g.freed + LoanAt(g.Articles(), a.offset));
      BufferIsClean(g, h, a, base, cat, all);
      FlushContiguousIsClean(h, base, cat, all);
    } else {
      assert [a][1..] == [];
      assert WriteInOrder(g, [a]) == (WriteOne(g, a).0, true) by {
        WriteOneKeepsFaithful(g, a, base, cat);
      }
      WriteInOrderIsClean(g, [a], base, cat, all);
    }
  }

  lemma BufferIsClean(g: File, h: File, a: BufferedArticle, base: Content, cat: Catalog, ids: set<int>)
    requires Clean(g, [a], base, cat) && Arrived(g, [a], ids) && a.data.Len() > 0
    requires h.w == g.w && h.buf == Some(PutArticle(g.Buffer(), a))
    ensures Clean(h, [], base, cat) && Arrived(h, [], ids)
  {
    BufferKeepsInv(g, h, a);
    assert [a][0].offset !in g.Articles();
    forall b ensures InFlight(h, [], b) <==> InFlight(g, [a], b) {
      BufferSameFlight(g, h, a, b);
    }
    SameFlightArrived(g, [a], h, [], ids);
  }

  // ----- runs

  ghost predicate InRange(info: FileInfo, a: BufferedArticle) {
    !OffsetOutOfRange(info, a.offset, a.data.Len())
  }

  /** The articles a run was handed successfully and in range, in whatever order and however often. */
  ghost function Received(info: FileInfo, ops: seq<FileOp>): set<int>
    decreases |ops|
  {
    if ops == [] then {}
    else
      var op := ops[|ops| - 1];
      Received(info, ops[..|ops| - 1]) + (if op.Arrive? && InRange(info, op.a) then {op.a.id} else {})
  }

  /** A record that changed without touching content, offsets, claims or flight. */
  lemma AdmitIsClean(f: File, g: File, base: Content, cat: Catalog, ids: set<int>)
    requires FlightDelivers(f, [], cat) && Faithful(f.w, base, cat) && Arrived(f, [], ids)
    requires g.buf == f.buf && g.w.acceptedAt == f.w.acceptedAt
    requires g.w.noted == f.w.noted && g.w.handle == f.w.handle
    ensures FlightDelivers(g, [], cat) && Faithful(g.w, base, cat) && Arrived(g, [], ids)
  {
  }

  lemma NewPartIsClean(f: File, limit: int, info: FileInfo, a: BufferedArticle, base: Content, cat: Catalog, ids: set<int>)
    requires Separate(cat) && Clean(f, [], base, cat) && Arrived(f, [], ids) && Delivers(a, cat)
    requires a.id !in f.w.seenDone
    ensures var g := HandleSuccess(f, limit, info, a).0;
            var all := ids + (if InRange(info, a) then {a.id} else {});
            Clean(g, [], base, cat) && Arrived(g, [], all)
  {
    HandleSuccessKeepsInv(f, limit, info, a);
    var w := if a.id in f.w.seenFailed then AdmitRetryOfFailed(f.w, a.id) else AdmitAccepted(f.w, a.id);
    AdmitKeepsInvBut(f, w, a.id);
    AdmitIsClean(f, f.(w := w), base, cat, ids);
    NobodyElseOwns(w, a, cat);
    if InRange(info, a) {
      AcceptIsClean(f.(w := w), limit, a, base, cat, ids);
    } else {
      AdmitIsClean(f.(w := w), HandleSuccess(f, limit, info, a).0, base, cat, ids);
    }
  }

  lemma HandleSuccessIsClean(f: File, limit: int, info: FileInfo, a: BufferedArticle, base: Content, cat: Catalog, ids: set<int>)
    requires Separate(cat) && Clean(f, [], base, cat) && Arrived(f, [], ids) && Delivers(a, cat)
    requires f.w.seenDone <= ids
    ensures var g := HandleSuccess(f, limit, info, a).0;
            var all := ids + (if InRange(info, a) then {a.id} else {});
            Clean(g, [], base, cat) && Arrived(g, [], all)
  {
    if a.id in f.w.seenDone {
      AdmitIsClean(f, HandleSuccess(f, limit, info, a).0, base, cat, ids);
      assert ids + {a.id} == ids;
    } else {
      NewPartIsClean(f, limit, info, a, base, cat, ids);
    }
  }

  lemma SeenWasInRange(f: File, limit: int, info: FileInfo, a: BufferedArticle, ids: set<int>)
    requires f.w.seenDone <= ids
    ensures HandleSuccess(f, limit, info, a).0.w.seenDone <= ids + (if InRange(info, a) then {a.id} else {})
  {
    if a.id !in f.w.seenDone {
      var w := if a.id in f.w.seenFailed then AdmitRetryOfFailed(f.w, a.id) else AdmitAccepted(f.w, a.id);
      AcceptArticleOnward(f.(w := w), limit, info, a);
    }
  }

  lemma StepIsClean(f: File, limit: int, info: FileInfo, op: FileOp, base: Content, cat: Catalog, ids: set<int>)
    requires Separate(cat) && Clean(f, [], base, cat) && Arrived(f, [], ids) && f.w.seenDone <= ids
    requires Plain(op, cat)
    ensures var g := Step(f, limit, info, op);
            var all := ids + (if op.Arrive? && InRange(info, op.a) then {op.a.id} else {});
            Clean(g, [], base, cat) && Arrived(g, [], all) && g.w.seenDone <= all
  {
    var g := Step(f, limit, info, op);
    StepKeepsInv(f, limit, info, op);
    assert ids + {} == ids;
    match op
    case Arrive(a) =>
      HandleSuccessIsClean(f, limit, info, a, base, cat, ids);
      SeenWasInRange(f, limit, info, a, ids);
    case PressureFlush =>
      FlushAllIsClean(f, base, cat, ids);
      FlushAllOnward(f);
    case DrainFile =>
      DrainIsClean(f, base, cat, ids);
    case _ => AdmitIsClean(f, g, base, cat, ids);
  }

  lemma DrainIsClean(f: File, base: Content, cat: Catalog, ids: set<int>)
    requires Separate(cat) && Clean(f, [], base, cat) && Arrived(f, [], ids) && f.w.seenDone <= ids
    ensures var g := Drain(f).0;
            Clean(g, [], base, cat) && Arrived(g, [], ids) && g.w.seenDone <= ids
  {
    FlushAllIsClean(f, base, cat, ids);
    FlushAllOnward(f);
    DrainKeepsInv(f);
    AdmitIsClean(FlushAll(f).0, Drain(f).0, base, cat, ids);
  }

  lemma {:induction false} RunIsClean(d: Disk, limit: int, info: FileInfo, ops: seq<FileOp>, cat: Catalog)
    requires Separate(cat) && NeverFaults(d)
    requires forall i | 0 <= i < |ops| :: Plain(ops[i], cat)
    ensures var f := Run(NewFile(d), limit, info, ops);
            && Clean(f, [], d.bytes, cat)
            && Arrived(f, [], Received(info, ops))
            && f.w.seenDone <= Received(info, ops)
    decreases |ops|
  {
    if ops == [] {
    } else {
      var most := ops[..|ops| - 1];
      RunIsClean(d, limit, info, most, cat);
      StepIsClean(Run(NewFile(d), limit, info, most), limit, info, ops[|ops| - 1], d.bytes, cat, Received(info, most));
    }
  }

  lemma NothingFliesAfterDrain(g: File, ids: set<int>)
    requires Inv(g, []) && Arrived(g, [], ids) && g.Articles() == map[]
    ensures NotedIds(g.w.noted) == ids
  {
    forall id | id in ids ensures id in NotedIds(g.w.noted) {
      NobodyFlies(g, id);
      var o :| SettledAt(g.w, o) && g.w.acceptedAt[o].id == id;
      assert Claimed(g.w, o);
      var i :| 0 <= i < |g.w.noted| && g.w.noted[i].offset == o;
      assert SettledAt(g.w, g.w.noted[i].offset);
      assert g.w.noted[i] in g.w.noted;
    }
  }

  /**
   * After a drain the file shows exactly the articles received in range, over what it held when it
   * was opened: for every cache limit, every arrival order with any redeliveries and failures mixed
   * in, and every schedule of contiguous, pressure and drain flushes.
   */
  lemma DrainedFileShowsReceived(d: Disk, limit: int, info: FileInfo, ops: seq<FileOp>, cat: Catalog)
    requires Separate(cat) && NeverFaults(d)
    requires forall i | 0 <= i < |ops| :: Plain(ops[i], cat)
    ensures Shows(Drain(Run(NewFile(d), limit, info, ops)).0.w.handle.bytes, d.bytes, cat, Received(info, ops))
  {
    var f := Run(NewFile(d), limit, info, ops);
    RunIsClean(d, limit, info, ops, cat);
    DrainIsClean(f, d.bytes, cat, Received(info, ops));
    DrainEmptiesTheBuffer(f);
    NothingFliesAfterDrain(Drain(f).0, Received(info, ops));
  }

  /** Two runs that received the same articles leave the same file, whatever their caches did. */
  lemma CacheIsTransparent(d: Disk, e: Disk, limit: int, limit': int, info: FileInfo,
                           ops: seq<FileOp>, ops': seq<FileOp>, cat: Catalog)
    requires Separate(cat) && NeverFaults(d) && NeverFaults(e) && d.bytes == e.bytes
    requires forall i | 0 <= i < |ops| :: Plain(ops[i], cat)
    requires forall i | 0 <= i < |ops'| :: Plain(ops'[i], cat)
    requires Received(info, ops) == Received(info, ops')
    ensures Drain(Run(NewFile(d), limit, info, ops)).0.w.handle.bytes
         == Drain(Run(NewFile(e), limit', info, ops')).0.w.handle.bytes
  {
    DrainedFileShowsReceived(d, limit, info, ops, cat);
    DrainedFileShowsReceived(e, limit', info, ops', cat);
    ShowsIsUnique(Drain(Run(NewFile(d), limit, info, ops)).0.w.handle.bytes,
                  Drain(Run(NewFile(e), limit', info, ops')).0.w.handle.bytes,
                  d.bytes, cat, Received(info, ops));
  }

  /** And it is the file that writing each received article straight to its offset produces, in any order. */
  lemma CacheAgreesWithDirectWrites(d: Disk, limit: int, info: FileInfo, ops: seq<FileOp>, cat: Catalog, order: seq<int>)
    requires Separate(cat) && NeverFaults(d)
    requires forall i | 0 <= i < |ops| :: Plain(ops[i], cat)
    requires Elements(order) == Received(info, ops)
    ensures Drain(Run(NewFile(d), limit, info, ops)).0.w.handle.bytes == Direct(d.bytes, cat, order)
  {
    DrainedFileShowsReceived(d, limit, info, ops, cat);
    DirectShows(d.bytes, cat, order);
    ShowsIsUnique(Drain(Run(NewFile(d), limit, info, ops)).0.w.handle.bytes, Direct(d.bytes, cat, order),
                  d.bytes, cat, Received(info, ops));
  }
}
