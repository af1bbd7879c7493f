/** What every operation on an open file keeps. */
module WriterInvariant {
  import opened Types
  import opened FileBuffer
  import opened Writing

  // An article's bytes are in flight while they are buffered, or in the hands of a flush that has
  // taken them out of the cache and not yet written them. Between operations no hand holds anything.

  ghost predicate InFlight(f: File, hand: seq<BufferedArticle>, a: BufferedArticle) {
    (a.offset in f.Articles() && f.Articles()[a.offset] == a) || a in hand
  }

  ghost predicate Flying(f: File, hand: seq<BufferedArticle>, id: int) {
    exists a :: InFlight(f, hand, a) && a.id == id
  }

  ghost predicate SettledAt(w: Writer, o: int) {
    o in w.acceptedAt && w.acceptedAt[o].written
  }

  ghost predicate Landed(w: Writer, id: int) {
    exists o :: SettledAt(w, o) && w.acceptedAt[o].id == id
  }

  ghost predicate HandIsFresh(f: File, hand: seq<BufferedArticle>) {
    DistinctOffsets(hand) && forall i | 0 <= i < |hand| :: hand[i].offset !in f.Articles()
  }

  /** Bytes in flight belong to their offset's unsettled owner, which is recorded as accepted. */
  ghost predicate Owned(f: File, hand: seq<BufferedArticle>) {
    forall a | InFlight(f, hand, a) ::
      a.offset in f.w.acceptedAt && f.w.acceptedAt[a.offset] == OffsetOwner(a.id, false) && a.id in f.w.seenDone
  }

  ghost predicate OneCopy(f: File, hand: seq<BufferedArticle>) {
    forall a, b | InFlight(f, hand, a) && InFlight(f, hand, b) && a.id == b.id :: a == b
  }

  /** An article lands at most once, is recorded as accepted from then on, and is never in flight again. */
  ghost predicate LandsOnce(f: File, hand: seq<BufferedArticle>) {
    && (forall o | SettledAt(f.w, o) :: f.w.acceptedAt[o].id in f.w.seenDone)
    && (forall o, p | SettledAt(f.w, o) && SettledAt(f.w, p) && f.w.acceptedAt[o].id == f.w.acceptedAt[p].id :: o == p)
    && (forall o, a | SettledAt(f.w, o) && InFlight(f, hand, a) :: f.w.acceptedAt[o].id != a.id)
  }

  ghost predicate PartsCounted(w: Writer) {
    w.partsWritten == |w.seenDone + w.seenFailed|
  }

  /** No hole: an accepted article not resolved as failed has landed or is in flight. */
  ghost predicate NoHole(f: File, hand: seq<BufferedArticle>) {
    forall id | id in f.w.seenDone && id !in f.w.seenFailed :: Landed(f.w, id) || Flying(f, hand, id)
  }

  ghost predicate Claimed(w: Writer, o: int) {
    exists i :: 0 <= i < |w.noted| && w.noted[i].offset == o
  }

  /** Settled offsets are exactly the claimed ones; each is claimed once, by its owner. */
  ghost predicate ClaimsAreSettled(w: Writer) {
    && (forall o | SettledAt(w, o) :: Claimed(w, o))
    && (forall i | 0 <= i < |w.noted| ::
          SettledAt(w, w.noted[i].offset) && w.acceptedAt[w.noted[i].offset].id == w.noted[i].artIdx)
    && (forall i, j | 0 <= i < j < |w.noted| :: w.noted[i].offset != w.noted[j].offset)
  }

  ghost predicate IsSuffix<T>(s: seq<T>, t: seq<T>) {
    |s| <= |t| && t[|t| - |s|..] == s
  }

  ghost predicate ClaimsArePending(w: Writer) {
    IsSuffix(w.reported + w.written, w.noted) && IsSuffix(w.faulted, w.rolled)
  }

  ghost predicate Inv(f: File, hand: seq<BufferedArticle>) {
    && (f.buf.Some? ==> Accounted(f.buf.value))
    && HandIsFresh(f, hand) && Owned(f, hand) && OneCopy(f, hand)
    && LandsOnce(f, hand)
    && PartsCounted(f.w)
    && NoHole(f, hand)
    && ClaimsAreSettled(f.w) && ClaimsArePending(f.w)
  }

  // ----- a landed article

  lemma Narrow(f: File, g: File, hand: seq<BufferedArticle>, a: BufferedArticle)
    requires hand != [] && g.buf == f.buf && HandIsFresh(f, hand)
    requires InFlight(g, hand[1..], a)
    ensures InFlight(f, hand, a) && a != hand[0] && a.offset != hand[0].offset
  {
  }

  lemma Widen(f: File, g: File, hand: seq<BufferedArticle>, id: int)
    requires hand != [] && g.buf == f.buf
    requires Flying(f, hand, id) && id != hand[0].id
    ensures Flying(g, hand[1..], id)
  {
  }

  lemma NoteKeepsFlight(f: File, g: File, hand: seq<BufferedArticle>, d: Disk)
    requires Inv(f, hand) && hand != []
    requires g.w == NoteWritten(f.w.(handle := d), PartOf(hand[0])) && g.buf == f.buf
    ensures Owned(g, hand[1..]) && OneCopy(g, hand[1..]) && LandsOnce(g, hand[1..]) && HandIsFresh(g, hand[1..])
  {
    var a0 := hand[0];
    assert InFlight(f, hand, a0);
    forall a | InFlight(g, hand[1..], a)
      ensures InFlight(f, hand, a) && a.offset != a0.offset && a.id != a0.id
    {
      Narrow(f, g, hand, a);
    }
    forall o | SettledAt(g.w, o) ensures o == a0.offset || SettledAt(f.w, o) {
    }
  }

  lemma NoteKeepsNoHole(f: File, g: File, hand: seq<BufferedArticle>, d: Disk)
    requires Inv(f, hand) && hand != []
    requires g.w == NoteWritten(f.w.(handle := d), PartOf(hand[0])) && g.buf == f.buf
    ensures NoHole(g, hand[1..])
  {
    var a0 := hand[0];
    assert InFlight(f, hand, a0);
    assert SettledAt(g.w, a0.offset);
    forall id | id in g.w.seenDone && id !in g.w.seenFailed
      ensures Landed(g.w, id) || Flying(g, hand[1..], id)
    {
      if id != a0.id {
        if Landed(f.w, id) {
          var o :| SettledAt(f.w, o) && f.w.acceptedAt[o].id == id;
          assert SettledAt(g.w, o);
        } else {
          Widen(f, g, hand, id);
        }
      }
    }
  }

  lemma NoteKeepsClaims(f: File, g: File, hand: seq<BufferedArticle>, d: Disk)
    requires Inv(f, hand) && hand != []
    requires g.w == NoteWritten(f.w.(handle := d), PartOf(hand[0])) && g.buf == f.buf
    ensures ClaimsAreSettled(g.w) && ClaimsArePending(g.w)
  {
    var a0 := hand[0];
    assert InFlight(f, hand, a0);
    forall i | 0 <= i < |f.w.noted| ensures f.w.noted[i].offset != a0.offset {
      assert SettledAt(f.w, f.w.noted[i].offset);
    }
    var rec := WrittenArticle(a0.id, a0.offset, a0.data.Len(), a0.crc32);
    forall o | SettledAt(g.w, o) ensures Claimed(g.w, o) {
      if o == a0.offset {
        assert g.w.noted[|f.w.noted|] == rec;
      } else {
        assert SettledAt(f.w, o);
        var i :| 0 <= i < |f.w.noted| && f.w.noted[i].offset == o;
        assert g.w.noted[i] == f.w.noted[i];
      }
    }
    assert f.w.reported + (f.w.written + [rec]) == (f.w.reported + f.w.written) + [rec];
  }

  lemma NoteKeepsInv(f: File, g: File, hand: seq<BufferedArticle>, d: Disk)
    requires Inv(f, hand) && hand != []
    requires g.w == NoteWritten(f.w.(handle := d), PartOf(hand[0])) && g.buf == f.buf
    ensures Inv(g, hand[1..])
  {
    NoteKeepsFlight(f, g, hand, d);
    NoteKeepsNoHole(f, g, hand, d);
    NoteKeepsClaims(f, g, hand, d);
  }

  // ----- an article taken back

  lemma FailKeepsFlight(f: File, g: File, hand: seq<BufferedArticle>, d: Disk)
    requires Inv(f, hand) && hand != []
    requires g.w == Fail(f.w.(handle := d), hand[0].id) && g.buf == f.buf
    ensures Owned(g, hand[1..]) && OneCopy(g, hand[1..]) && LandsOnce(g, hand[1..]) && HandIsFresh(g, hand[1..])
  {
    var a0 := hand[0];
    assert InFlight(f, hand, a0);
    forall a | InFlight(g, hand[1..], a)
      ensures InFlight(f, hand, a) && a.offset != a0.offset && a.id != a0.id
    {
      Narrow(f, g, hand, a);
    }
    forall o | SettledAt(g.w, o) ensures SettledAt(f.w, o) && g.w.acceptedAt[o].id != a0.id {
      assert SettledAt(f.w, o);
    }
  }

  /** The give-back keeps the count exact, and never meets its clamp: whoever loses a part was counted for one. */
  lemma FailKeepsCount(w: Writer, id: int)
    requires PartsCounted(w)
    ensures PartsCounted(Fail(w, id))
    ensures id in w.seenDone && id !in w.seenFailed ==> w.partsWritten > 0
  {
    var all := w.seenDone + w.seenFailed;
    if id in w.seenFailed || id !in w.seenDone {
      assert w.seenDone - {id} + w.seenFailed == all;
    } else {
      assert w.seenDone - {id} + w.seenFailed == all - {id};
      assert id in all;
    }
  }

  lemma FailKeepsNoHole(f: File, g: File, hand: seq<BufferedArticle>, d: Disk)
    requires Inv(f, hand) && hand != []
    requires g.w == Fail(f.w.(handle := d), hand[0].id) && g.buf == f.buf
    ensures NoHole(g, hand[1..])
  {
  }

  lemma FailKeepsInv(f: File, g: File, hand: seq<BufferedArticle>, d: Disk)
    requires Inv(f, hand) && hand != []
    requires g.w == Fail(f.w.(handle := d), hand[0].id) && g.buf == f.buf
    ensures Inv(g, hand[1..])
  {
    assert InFlight(f, hand, hand[0]);
    FailKeepsFlight(f, g, hand, d);
    FailKeepsCount(f.w.(handle := d), hand[0].id);
    FailKeepsNoHole(f, g, hand, d);
    forall o ensures SettledAt(f.w, o) <==> SettledAt(g.w, o) {
    }
    SameClaims(f.w, g.w);
  }

  lemma SameClaims(w: Writer, v: Writer)
    requires ClaimsAreSettled(w) && v.noted == w.noted
    requires forall o :: SettledAt(w, o) <==> SettledAt(v, o)
    requires forall o | SettledAt(w, o) :: o in v.acceptedAt && v.acceptedAt[o].id == w.acceptedAt[o].id
    ensures ClaimsAreSettled(v)
  {
  }
}
