/** Bytes over a sliding window, kept in a ring of one-second buckets. */
module Meters {
  import opened MapFold
  import opened Modular

  // Instants and durations in nanoseconds; instant 0 is the zero time, at which no clock ever reads.
  const SECOND := 1_000_000_000

  /** A time of 0 marks a bucket that was never written. */
  datatype Bucket = Bucket(ts: int, bytes: int)

  const EMPTY := Bucket(0, 0)

  /** n bytes recorded at an instant. */
  datatype Record = Record(at: int, n: int)

  function Truncate(at: int): int {
    at - at % SECOND
  }

  /** The number of buckets a window gets. */
  function BucketsFor(window: int): (n: nat)
    requires window > 0
    ensures n > 1
  {
    window / SECOND + 2
  }

  predicate InOrder(log: seq<Record>) {
    && (forall i | 0 <= i < |log| :: log[i].at >= SECOND)
    && (forall i, j | 0 <= i < j < |log| :: log[i].at <= log[j].at)
  }

  // ----- what the window should say

  /** The exact sum of the records whose second lies after the cutoff. */
  function SumOf(log: seq<Record>, cutoff: int): int
    decreases |log|
  {
    if log == [] then 0
    else
      var last := log[|log| - 1];
      SumOf(log[..|log| - 1], cutoff) + (if last.at - last.at % 1_000_000_000 > cutoff then last.n else 0)
  }

  /** One bucket per second with traffic, in order. */
  function Grouped(log: seq<Record>): seq<Bucket>
    decreases |log|
  {
    if log == [] then [] else Joined(Grouped(log[..|log| - 1]), Truncate(log[|log| - 1].at), log[|log| - 1].n)
  }

  function Joined(g: seq<Bucket>, sec: int, n: int): seq<Bucket> {
    if g != [] && g[|g| - 1].ts == sec then g[|g| - 1 := Bucket(sec, g[|g| - 1].bytes + n)]
    else g + [Bucket(sec, n)]
  }

  function Counts(b: Bucket, cutoff: int): int {
    if b.ts != 0 && b.ts > cutoff then b.bytes else 0
  }

  function SumAfter(g: seq<Bucket>, cutoff: int): int
    decreases |g|
  {
    if g == [] then 0 else SumAfter(g[..|g| - 1], cutoff) + Counts(g[|g| - 1], cutoff)
  }

  lemma SumAppend(g: seq<Bucket>, b: Bucket, cutoff: int)
    ensures SumAfter(g + [b], cutoff) == SumAfter(g, cutoff) + Counts(b, cutoff)
  {
  }

  lemma {:induction false} SumReplace(g: seq<Bucket>, i: nat, b: Bucket, cutoff: int)
    requires i < |g|
    ensures SumAfter(g[i := b], cutoff) == SumAfter(g, cutoff) - Counts(g[i], cutoff) + Counts(b, cutoff)
    decreases |g|
  {
    if i < |g| - 1 {
      assert g[i := b][..|g| - 1] == g[..|g| - 1][i := b];
      SumReplace(g[..|g| - 1], i, b, cutoff);
    } else {
      assert g[i := b][..|g| - 1] == g[..|g| - 1];
    }
  }

  lemma {:induction false} SumDrop(g: seq<Bucket>, cutoff: int)
    requires g != []
    ensures SumAfter(g, cutoff) == Counts(g[0], cutoff) + SumAfter(g[1..], cutoff)
    decreases |g|
  {
    if |g| > 1 {
      SumDrop(g[..|g| - 1], cutoff);
      assert g[..|g| - 1][1..] == g[1..][..|g[1..]| - 1];
    }
  }

  /** Buckets by the second, strictly rising by whole seconds. */
  ghost predicate Rising(g: seq<Bucket>) {
    && (forall i | 0 <= i < |g| :: g[i].ts >= SECOND && g[i].ts % SECOND == 0)
    && (forall i, j | 0 <= i < j < |g| :: g[i].ts + (j - i) * SECOND <= g[j].ts)
  }

  lemma JoinKeepsRising(g: seq<Bucket>, sec: int, n: int)
    requires Rising(g) && sec >= SECOND && sec % SECOND == 0 && (g != [] ==> g[|g| - 1].ts <= sec)
    ensures Rising(Joined(g, sec, n)) && Joined(g, sec, n) != [] && Joined(g, sec, n)[|Joined(g, sec, n)| - 1].ts == sec
  {
    if g != [] && g[|g| - 1].ts < sec {
      var last := g[|g| - 1].ts;
      assert last + SECOND <= sec;
      forall i | 0 <= i < |g| ensures g[i].ts + (|g| - i) * SECOND <= sec {
        if i < |g| - 1 {
          assert g[i].ts + (|g| - 1 - i) * SECOND <= last;
        }
      }
    }
  }

  lemma {:induction false} GroupedRises(log: seq<Record>)
    requires InOrder(log)
    ensures Rising(Grouped(log))
    ensures log != [] ==> Grouped(log) != [] && Grouped(log)[|Grouped(log)| - 1].ts == Truncate(log[|log| - 1].at)
    decreases |log|
  {
    if log != [] {
      var most := log[..|log| - 1];
      GroupedRises(most);
      JoinKeepsRising(Grouped(most), Truncate(log[|log| - 1].at), log[|log| - 1].n);
    }
  }

  lemma JoinAddsUp(g: seq<Bucket>, sec: int, n: int, cutoff: int)
    requires sec >= SECOND
    ensures SumAfter(Joined(g, sec, n), cutoff) == SumAfter(g, cutoff) + (if sec > cutoff then n else 0)
  {
  }

  /** Grouping by the second loses nothing. */
  lemma {:induction false} GroupedAddsUp(log: seq<Record>, cutoff: int)
    requires InOrder(log)
    ensures SumAfter(Grouped(log), cutoff) == SumOf(log, cutoff)
    decreases |log|
  {
    if log != [] {
      GroupedAddsUp(log[..|log| - 1], cutoff);
      JoinAddsUp(Grouped(log[..|log| - 1]), Truncate(log[|log| - 1].at), log[|log| - 1].n, cutoff);
    }
  }

  // ----- the ring

  /** The ring after these seconds: the k-th of them went into slot k modulo n. */
  function Slots(g: seq<Bucket>, n: nat): (s: seq<Bucket>)
    requires n > 0
    ensures |s| == n
    decreases |g|
  {
    if g == [] then seq(n, i => EMPTY) else Slots(g[..|g| - 1], n)[Wrap(|g|, n) := g[|g| - 1]]
  }

  function Recent(g: seq<Bucket>, n: nat): seq<Bucket>
    requires n > 0
  {
    if |g| > n then g[|g| - n..] else g
  }

  lemma {:induction false} SlotHolds(g: seq<Bucket>, n: nat, k: nat)
    requires n > 0 && 1 <= k <= |g| && |g| - n < k
    ensures Slots(g, n)[Wrap(k, n)] == g[k - 1]
    decreases |g|
  {
    if k < |g| {
      NearDiffers(k, |g|, n);
      SlotHolds(g[..|g| - 1], n, k);
    }
  }

  lemma {:induction false} SlotIsEmpty(g: seq<Bucket>, n: nat, i: nat)
    requires n > 0 && |g| < n && 0 <= i < n && (i == 0 || i > |g|)
    ensures Slots(g, n)[i] == EMPTY
    decreases |g|
  {
    if g != [] {
      SlotIsEmpty(g[..|g| - 1], n, i);
    }
  }

  /** What the next second overwrites: nothing, until the ring is full; then the oldest second it holds. */
  lemma NextSlot(g: seq<Bucket>, n: nat)
    requires n > 1
    ensures Slots(g, n)[Wrap(|g| + 1, n)] == if |g| < n then EMPTY else g[|g| - n]
  {
    if |g| < n {
      if |g| + 1 < n {
        SlotIsEmpty(g, n, |g| + 1);
      } else {
        SlotIsEmpty(g, n, 0);
      }
    } else {
      assert Wrap(|g| + 1, n) == Wrap(|g| + 1 - n, n);
      SlotHolds(g, n, |g| + 1 - n);
    }
  }

  lemma SlotsAppend(g: seq<Bucket>, n: nat, b: Bucket)
    requires n > 1
    ensures Slots(g + [b], n) == Slots(g, n)[Wrap(|g| + 1, n) := b]
  {
  }

  lemma {:induction false} EmptyRingSums(n: int, cutoff: int)
    requires n >= 0
    ensures SumAfter(seq(n, i => EMPTY), cutoff) == 0
    decreases n
  {
    if n > 0 {
      assert seq(n, i => EMPTY)[..n - 1] == seq(n - 1, i => EMPTY);
      EmptyRingSums(n - 1, cutoff);
    }
  }

  lemma RecentAppend(g: seq<Bucket>, n: nat, b: Bucket, cutoff: int)
    requires n > 1
    ensures SumAfter(Recent(g + [b], n), cutoff)
         == SumAfter(Recent(g, n), cutoff) - (if |g| < n then 0 else Counts(g[|g| - n], cutoff)) + Counts(b, cutoff)
  {
    if |g| < n {
      SumAppend(g, b, cutoff);
    } else {
      var kept := g[|g| - n..];
      assert Recent(g, n) == kept && kept[0] == g[|g| - n];
      assert Recent(g + [b], n) == kept[1..] + [b];
      SumDrop(kept, cutoff);
      SumAppend(kept[1..], b, cutoff);
    }
  }

  lemma RingAppend(g: seq<Bucket>, n: nat, b: Bucket, cutoff: int)
    requires n > 1
    ensures SumAfter(Slots(g + [b], n), cutoff)
         == SumAfter(Slots(g, n), cutoff) - (if |g| < n then 0 else Counts(g[|g| - n], cutoff)) + Counts(b, cutoff)
  {
    SlotsAppend(g, n, b);
    NextSlot(g, n);
    SumReplace(Slots(g, n), Wrap(|g| + 1, n), b, cutoff);
  }

  /** The ring holds exactly the most recent seconds, whatever slots they are in. */
  lemma {:induction false} RingIsRecent(g: seq<Bucket>, n: nat, cutoff: int)
    requires n > 1
    ensures SumAfter(Slots(g, n), cutoff) == SumAfter(Recent(g, n), cutoff)
    decreases |g|
  {
    if g == [] {
      EmptyRingSums(n, cutoff);
    } else {
      var most, b := g[..|g| - 1], g[|g| - 1];
      assert g == most + [b];
      RingIsRecent(most, n, cutoff);
      RecentAppend(most, n, b, cutoff);
      RingAppend(most, n, b, cutoff);
    }
  }

  /** The second in use stays in use exactly when its slot already shows the record's second. */
  lemma SlotTells(g: seq<Bucket>, n: nat, sec: int)
    requires n > 1 && sec != 0
    ensures Slots(g, n)[Wrap(|g|, n)].ts == sec <==> g != [] && g[|g| - 1].ts == sec
  {
  }

  lemma RingStays(g: seq<Bucket>, n: nat, sec: int, x: int)
    requires n > 1 && g != [] && g[|g| - 1].ts == sec
    ensures |Joined(g, sec, x)| == |g|
    ensures Slots(Joined(g, sec, x), n)
         == Slots(g, n)[Wrap(|g|, n) := Bucket(sec, Slots(g, n)[Wrap(|g|, n)].bytes + x)]
  {
  }

  lemma RingMoves(g: seq<Bucket>, n: nat, sec: int, x: int)
    requires n > 1 && (g == [] || g[|g| - 1].ts != sec)
    ensures |Joined(g, sec, x)| == |g| + 1
    ensures Slots(Joined(g, sec, x), n) == Slots(g, n)[Wrap(|g| + 1, n) := Bucket(sec, x)]
  {
  }

  lemma GroupedAppend(log: seq<Record>, r: Record)
    ensures Grouped(log + [r]) == Joined(Grouped(log), Truncate(r.at), r.n)
  {
  }

  /** No bucket still inside a window is ever overwritten, nor missing from the ring. */
  lemma OverwrittenIsOutside(g: seq<Bucket>, window: int, now: int, k: nat)
    requires window > 0 && Rising(g) && g != [] && g[|g| - 1].ts <= now
    requires k < |g| - BucketsFor(window)
    ensures g[k].ts <= now - window
  {
  }

  lemma {:induction false} SumSplit(g: seq<Bucket>, k: nat, cutoff: int)
    requires k <= |g| && forall i | 0 <= i < k :: Counts(g[i], cutoff) == 0
    ensures SumAfter(g, cutoff) == SumAfter(g[k..], cutoff)
    decreases k
  {
    if k > 0 {
      SumDrop(g, cutoff);
      SumSplit(g[1..], k - 1, cutoff);
      assert g[1..][k - 1..] == g[k..];
    } else {
      assert g[0..] == g;
    }
  }

  // ----- one server's ring

  datatype Ring = Ring(buckets: seq<Bucket>, head: nat, lifetime: int)

  function NewRing(n: nat): Ring {
    Ring(seq(n, i => EMPTY), 0, 0)
  }

  /** Add to the bucket in use if it is this second's; otherwise start the next. */
  function Add(r: Ring, now: int, n: int): (q: Ring)
    requires |r.buckets| > 1
    ensures |q.buckets| == |r.buckets|
  {
    var sec := Truncate(now);
    var i := r.head % |r.buckets|;
    var b := r.buckets[i];
    if b.ts == sec then Ring(r.buckets[i := Bucket(sec, b.bytes + n)], r.head, r.lifetime + n)
    else
      Ring(r.buckets[(r.head + 1) % |r.buckets| := Bucket(sec, n)], r.head + 1, r.lifetime + n)
  }

  function Flushed(r: Ring): Ring {
    Ring(seq(|r.buckets|, i => EMPTY), 0, r.lifetime)
  }

  /** The ring is what recording this log, since the last flush, leaves. */
  ghost predicate Shows(r: Ring, log: seq<Record>) {
    && |r.buckets| > 1 && InOrder(log)
    && r.head == |Grouped(log)| && r.buckets == Slots(Grouped(log), |r.buckets|)
  }

  lemma AddShows(r: Ring, log: seq<Record>, now: int, n: int)
    requires Shows(r, log) && now >= SECOND && (forall i | 0 <= i < |log| :: log[i].at <= now)
    ensures Shows(Add(r, now, n), log + [Record(now, n)])
  {
    var g, m, sec := Grouped(log), |r.buckets|, Truncate(now);
    SlotTells(g, m, sec);
    WrapIsRemainder(r.head, m);
    WrapIsRemainder(r.head + 1, m);
    GroupedAppend(log, Record(now, n));
    if g != [] && g[|g| - 1].ts == sec {
      RingStays(g, m, sec, n);
    } else {
      RingMoves(g, m, sec, n);
    }
  }

  /**
   * For a clock that never goes back, what the ring adds up to inside the window is the exact sum of the
   * records made since the last flush whose second is after now less the window.
   */
  lemma RingIsExact(r: Ring, log: seq<Record>, window: int, now: int)
    requires window > 0 && |r.buckets| == BucketsFor(window) && Shows(r, log)
    requires forall i | 0 <= i < |log| :: log[i].at <= now
    ensures SumAfter(r.buckets, now - window) == SumOf(log, now - window)
  {
    var g, n, cutoff := Grouped(log), |r.buckets|, now - window;
    GroupedRises(log);
    GroupedAddsUp(log, cutoff);
    RingIsRecent(g, n, cutoff);
    if |g| > n {
      forall i | 0 <= i < |g| - n ensures Counts(g[i], cutoff) == 0 {
        OverwrittenIsOutside(g, window, now, i);
      }
      SumSplit(g, |g| - n, cutoff);
    }
  }

  /** The ring in memory. */
  class ServerState {
    const buckets: array<Bucket>
    var head: nat
    var lifetime: int

    ghost predicate Valid()
      reads this
    {
      buckets.Length > 1
    }

    ghost function Model(): Ring
      reads this, buckets
    {
      Ring(buckets[..], head, lifetime)
    }

    constructor (bucketN: nat)
      requires bucketN > 1
      ensures Valid() && fresh(buckets) && buckets.Length == bucketN && Model() == NewRing(bucketN)
    {
      buckets := new Bucket[bucketN](i => EMPTY);
      head := 0;
      lifetime := 0;
      new;
      assert buckets[..] == seq(bucketN, i => EMPTY);
    }

    method Record(now: int, n: int)
      requires Valid()
      modifies this, buckets
      ensures Model() == Add(old(Model()), now, n)
    {
      var sec := Truncate(now);
      var i := head % buckets.Length;
      if buckets[i].ts == sec {
        buckets[i] := Bucket(sec, buckets[i].bytes + n);
      } else {
        head := head + 1;
        buckets[head % buckets.Length] := Bucket(sec, n);
      }
      lifetime := lifetime + n;
    }

    method Reset()
      modifies this, buckets
      ensures Model() == Flushed(old(Model()))
    {
      for i := 0 to buckets.Length
        invariant lifetime == old(lifetime)
        invariant forall j | 0 <= j < i :: buckets[j] == EMPTY
      {
        buckets[i] := EMPTY;
      }
      head := 0;
      assert buckets[..] == seq(buckets.Length, i => EMPTY);
    }

    /** The bytes after the cutoff: bps is this over the window's length. */
    method Total(cutoff: int) returns (total: int)
      ensures total == SumAfter(Model().buckets, cutoff)
    {
      total := 0;
      for i := 0 to buckets.Length
        invariant total == SumAfter(buckets[..i], cutoff)
      {
        assert buckets[..i + 1] == buckets[..i] + [buckets[i]];
        SumAppend(buckets[..i], buckets[i], cutoff);
        if buckets[i].ts != 0 && buckets[i].ts > cutoff {
          total := total + buckets[i].bytes;
        }
      }
      assert buckets[..buckets.Length] == buckets[..];
    }
  }

  // ----- all servers: number 0 is the aggregate

  datatype Traffic = Traffic(server: nat, at: int, n: int)

  /** What the aggregate ring is given: everything. */
  function All(log: seq<Traffic>): seq<Record> {
    seq(|log|, i requires 0 <= i < |log| => Record(log[i].at, log[i].n))
  }

  /** What one server's ring is given. */
  function For(log: seq<Traffic>, server: nat): seq<Record>
    decreases |log|
  {
    if log == [] then []
    else
      var last := log[|log| - 1];
      For(log[..|log| - 1], server) + if last.server == server then [Record(last.at, last.n)] else []
  }

  ghost function PerServer(log: seq<Traffic>, servers: set<nat>, cutoff: int): map<nat, int> {
    map s | s in servers :: SumOf(For(log, s), cutoff)
  }

  lemma SumOfAppend(log: seq<Record>, r: Record, cutoff: int)
    ensures SumOf(log + [r], cutoff) == SumOf(log, cutoff) + (if Truncate(r.at) > cutoff then r.n else 0)
  {
  }

  lemma {:induction false} ZeroSums(m: map<nat, int>)
    requires forall s | s in m :: m[s] == 0
    ensures Sum(m) == 0
    decreases |m|
  {
    if m != map[] {
      var s :| s in m;
      SumRemove(m, s);
      ZeroSums(m - {s});
    }
  }

  lemma ForAppend(log: seq<Traffic>, r: Traffic, s: nat)
    ensures For(log + [r], s) == For(log, s) + if r.server == s then [Record(r.at, r.n)] else []
  {
  }

  lemma PerServerAppend(log: seq<Traffic>, r: Traffic, servers: set<nat>, cutoff: int)
    requires r.server in servers
    ensures Sum(PerServer(log + [r], servers, cutoff))
         == Sum(PerServer(log, servers, cutoff)) + (if Truncate(r.at) > cutoff then r.n else 0)
  {
    var before, after := PerServer(log, servers, cutoff), PerServer(log + [r], servers, cutoff);
    var k := r.server;
    ForAppend(log, r, k);
    SumOfAppend(For(log, k), Record(r.at, r.n), cutoff);
    assert after[k] == before[k] + (if Truncate(r.at) > cutoff then r.n else 0);
    forall s | s in servers && s != k ensures after[s] == before[s] {
      ForAppend(log, r, s);
      assert For(log, s) + [] == For(log, s);
    }
    assert after == before[k := after[k]];
    SumUpdate(before, k, after[k]);
  }

  lemma AllAppend(log: seq<Traffic>, r: Traffic)
    ensures All(log + [r]) == All(log) + [Record(r.at, r.n)]
  {
  }

  /** The aggregate is the servers' sums and the unnamed traffic, added up. */
  lemma {:induction false} AggregateAddsUp(log: seq<Traffic>, servers: set<nat>, cutoff: int)
    requires forall i | 0 <= i < |log| :: log[i].server in servers
    ensures SumOf(All(log), cutoff) == Sum(PerServer(log, servers, cutoff))
    decreases |log|
  {
    if log == [] {
      ZeroSums(PerServer(log, servers, cutoff));
    } else {
      var most, last := log[..|log| - 1], log[|log| - 1];
      assert log == most + [last];
      AggregateAddsUp(most, servers, cutoff);
      PerServerAppend(most, last, servers, cutoff);
      AggregateStep(most, last, cutoff);
    }
  }

  lemma AggregateStep(log: seq<Traffic>, r: Traffic, cutoff: int)
    ensures SumOf(All(log + [r]), cutoff) == SumOf(All(log), cutoff) + (if Truncate(r.at) > cutoff then r.n else 0)
  {
    AllAppend(log, r);
    SumOfAppend(All(log), Record(r.at, r.n), cutoff);
  }

  /** What the ring of one server, or of the aggregate, is given. */
  function Given(log: seq<Traffic>, server: nat): seq<Record> {
    if server == 0 then All(log) else For(log, server)
  }

  lemma GivenAppend(log: seq<Traffic>, r: Traffic, s: nat)
    ensures Given(log + [r], s) == Given(log, s) + if s == 0 || r.server == s then [Record(r.at, r.n)] else []
  {
  }

  ghost predicate NoneAfter(log: seq<Record>, now: int) {
    forall i | 0 <= i < |log| :: log[i].at <= now
  }

  lemma {:induction false} GivenBefore(log: seq<Traffic>, server: nat, now: int)
    requires NoneAfter(All(log), now)
    ensures NoneAfter(Given(log, server), now)
    decreases |log|
  {
    if log != [] {
      var most, last := log[..|log| - 1], log[|log| - 1];
      assert log == most + [last];
      AllAppend(most, last);
      assert forall i | 0 <= i < |most| :: All(most)[i] == All(log)[i];
      assert All(log)[|most|] == Record(last.at, last.n);
      GivenBefore(most, server, now);
      GivenAppend(most, last, server);
    }
  }

  lemma {:induction false} NotSeen(log: seq<Traffic>, server: nat)
    requires forall i | 0 <= i < |log| :: log[i].server != server
    ensures For(log, server) == []
    decreases |log|
  {
    if log != [] {
      NotSeen(log[..|log| - 1], server);
    }
  }

  // ----- the meter

  type Rings = map<nat, Ring>

  function RingOf(servers: Rings, n: nat, server: nat): Ring {
    if server in servers then servers[server] else NewRing(n)
  }

  /** A named server's record goes to its own ring, made on its first one, and every record to the aggregate. */
  function Recorded(servers: Rings, n: nat, t: Traffic): Rings
    requires n > 1 && 0 in servers && forall k | k in servers :: |servers[k].buckets| == n
  {
    var named := if t.server == 0 then servers
                 else servers[t.server := Add(RingOf(servers, n, t.server), t.at, t.n)];
    named[0 := Add(servers[0], t.at, t.n)]
  }

  function AllFlushed(servers: Rings): Rings {
    map k | k in servers :: Flushed(servers[k])
  }

  ghost predicate Sized(servers: Rings, n: nat) {
    n > 1 && 0 in servers && forall k | k in servers :: |servers[k].buckets| == n
  }

  // A relation between a ring and the records it was given.
  type Relation = (Ring, seq<Record>) -> bool

  ghost predicate KeptByAdd(S: Relation) {
    forall r: Ring, log: seq<Record>, x: Record {:trigger S(Add(r, x.at, x.n), log + [x])}
      | S(r, log) && |r.buckets| > 1 && x.at >= SECOND && NoneAfter(log, x.at) :: S(Add(r, x.at, x.n), log + [x])
  }

  ghost predicate KeptByFlush(S: Relation) {
    forall r: Ring, log: seq<Record> {:trigger S(r, log), Flushed(r)}
      | S(r, log) && |r.buckets| > 1 :: S(Flushed(r), [])
  }

  ghost predicate StartsNew(S: Relation) {
    forall n: nat | n > 1 :: S(NewRing(n), [])
  }

  lemma ShowsIsKept()
    ensures KeptByAdd(Shows) && KeptByFlush(Shows) && StartsNew(Shows)
  {
    forall r: Ring, log: seq<Record>, x: Record
      | Shows(r, log) && |r.buckets| > 1 && x.at >= SECOND && NoneAfter(log, x.at)
      ensures Shows(Add(r, x.at, x.n), log + [x])
    {
      AddShows(r, log, x.at, x.n);
    }
  }

  /** Every ring stands in the relation to what it was given since the last flush. */
  ghost predicate AllStand(servers: Rings, n: nat, log: seq<Traffic>, S: Relation) {
    && Sized(servers, n)
    && (forall k | k in servers :: S(servers[k], Given(log, k)))
    && (forall i | 0 <= i < |log| :: log[i].server in servers)
  }

  lemma RingStands(servers: Rings, n: nat, log: seq<Traffic>, server: nat, S: Relation)
    requires AllStand(servers, n, log, S) && StartsNew(S)
    ensures S(RingOf(servers, n, server), Given(log, server)) && |RingOf(servers, n, server).buckets| == n
  {
    if server !in servers {
      NotSeen(log, server);
    }
  }

  lemma RecordStands(servers: Rings, n: nat, log: seq<Traffic>, t: Traffic, k: nat, S: Relation)
    requires AllStand(servers, n, log, S) && StartsNew(S) && KeptByAdd(S)
    requires NoneAfter(All(log), t.at) && t.at >= SECOND && (k == 0 || k == t.server)
    ensures S(Add(RingOf(servers, n, k), t.at, t.n), Given(log + [t], k))
  {
    RingStands(servers, n, log, k, S);
    GivenBefore(log, k, t.at);
    assert NoneAfter(Given(log, k), Record(t.at, t.n).at);
    GivenAppend(log, t, k);
  }

  lemma RecordedStands(servers: Rings, n: nat, log: seq<Traffic>, t: Traffic, S: Relation)
    requires AllStand(servers, n, log, S) && StartsNew(S) && KeptByAdd(S) && NoneAfter(All(log), t.at) && t.at >= SECOND
    ensures AllStand(Recorded(servers, n, t), n, log + [t], S)
  {
    var after := Recorded(servers, n, t);
    forall k | k in after ensures S(after[k], Given(log + [t], k)) {
      if k == 0 || k == t.server {
        RecordStands(servers, n, log, t, k, S);
      } else {
        GivenAppend(log, t, k);
        assert Given(log, k) + [] == Given(log, k);
      }
    }
  }

  lemma FlushedStands(servers: Rings, n: nat, log: seq<Traffic>, S: Relation)
    requires AllStand(servers, n, log, S) && KeptByFlush(S)
    ensures AllStand(AllFlushed(servers), n, [], S)
  {
  }

  datatype MeterEvent = Recording(t: Traffic) | Flushing

  /** A meter's life: records by a clock that never goes back, and flushes. */
  ghost function Life(n: nat, events: seq<MeterEvent>): (r: (Rings, seq<Traffic>))
    requires n > 1
    ensures Sized(r.0, n)
    decreases |events|
  {
    if events == [] then (map[0 := NewRing(n)], [])
    else
      var (servers, log) := Life(n, events[..|events| - 1]);
      match events[|events| - 1]
      case Recording(t) => (Recorded(servers, n, t), log + [t])
      case Flushing => (AllFlushed(servers), [])
  }

  ghost predicate NoneLater(events: seq<MeterEvent>, now: int) {
    forall i | 0 <= i < |events| && events[i].Recording? :: events[i].t.at <= now
  }

  ghost predicate ClockNeverGoesBack(events: seq<MeterEvent>) {
    && (forall i | 0 <= i < |events| && events[i].Recording? :: events[i].t.at >= SECOND)
    && (forall i, j | 0 <= i < j < |events| && events[i].Recording? && events[j].Recording? :: events[i].t.at <= events[j].t.at)
  }

  lemma {:induction false} LifeStands(n: nat, events: seq<MeterEvent>, S: Relation)
    requires n > 1 && ClockNeverGoesBack(events) && StartsNew(S) && KeptByAdd(S) && KeptByFlush(S)
    ensures AllStand(Life(n, events).0, n, Life(n, events).1, S)
    ensures forall i | 0 <= i < |Life(n, events).1| :: Recording(Life(n, events).1[i]) in events
    decreases |events|
  {
    if events == [] {
      assert Given([], 0) == [];
    } else {
      var most, last := events[..|events| - 1], events[|events| - 1];
      LifeStands(n, most, S);
      var (servers, log) := Life(n, most);
      if last.Recording? {
        forall i | 0 <= i < |log| ensures All(log)[i].at <= last.t.at {
          assert Recording(log[i]) in most;
        }
        RecordedStands(servers, n, log, last.t, S);
      } else {
        FlushedStands(servers, n, log, S);
      }
    }
  }

  lemma RingOfLifeStands(n: nat, events: seq<MeterEvent>, server: nat, now: int, S: Relation)
    requires n > 1 && ClockNeverGoesBack(events) && StartsNew(S) && KeptByAdd(S) && KeptByFlush(S)
    requires NoneLater(events, now)
    ensures var (servers, log) := Life(n, events);
            && S(RingOf(servers, n, server), Given(log, server)) && |RingOf(servers, n, server).buckets| == n
            && NoneAfter(Given(log, server), now)
            && forall i | 0 <= i < |log| :: log[i].server in servers
  {
    var (servers, log) := Life(n, events);
    LifeStands(n, events, S);
    RingStands(servers, n, log, server, S);
    forall i | 0 <= i < |log| ensures All(log)[i].at <= now {
      assert Recording(log[i]) in events;
    }
    GivenBefore(log, server, now);
  }

  lemma RingOfLifeShows(n: nat, events: seq<MeterEvent>, server: nat, now: int) returns (r: Ring, log: seq<Record>)
    requires n > 1 && ClockNeverGoesBack(events)
    requires NoneLater(events, now)
    ensures r == RingOf(Life(n, events).0, n, server) && log == Given(Life(n, events).1, server)
    ensures Shows(r, log) && |r.buckets| == n && NoneAfter(log, now)
  {
    ShowsIsKept();
    RingOfLifeStands(n, events, server, now, Shows);
    r, log := RingOf(Life(n, events).0, n, server), Given(Life(n, events).1, server);
  }

  /**
   * Over a meter's whole life, the bytes any server's ring shows inside the window, and the aggregate's,
   * are the exact sum of its records since the last flush whose second is after now less the window.
   */
  lemma WindowIsExact(window: int, events: seq<MeterEvent>, server: nat, now: int)
    requires window > 0 && ClockNeverGoesBack(events)
    requires NoneLater(events, now)
    ensures SumAfter(RingOf(Life(BucketsFor(window), events).0, BucketsFor(window), server).buckets, now - window)
         == SumOf(Given(Life(BucketsFor(window), events).1, server), now - window)
  {
    var r, log := RingOfLifeShows(BucketsFor(window), events, server, now);
    RingIsExact(r, log, window, now);
  }

  lemma ServersAreKept(n: nat, events: seq<MeterEvent>)
    requires n > 1 && ClockNeverGoesBack(events)
    ensures var (servers, log) := Life(n, events);
            0 in servers && forall i | 0 <= i < |log| :: log[i].server in servers
  {
    LifeStands(n, events, (r, log) => true);
  }

  lemma AggregateShowsAll(servers: Rings, n: nat, log: seq<Traffic>, cutoff: int)
    requires 0 in servers && forall i | 0 <= i < |log| :: log[i].server in servers
    requires SumAfter(RingOf(servers, n, 0).buckets, cutoff) == SumOf(Given(log, 0), cutoff)
    ensures SumAfter(servers[0].buckets, cutoff) == Sum(PerServer(log, servers.Keys, cutoff))
  {
    AggregateAddsUp(log, servers.Keys, cutoff);
  }

  /** And the aggregate's is the sum over its servers and the unnamed traffic. */
  lemma AggregateIsTheSum(window: int, events: seq<MeterEvent>, now: int)
    requires window > 0 && ClockNeverGoesBack(events)
    requires NoneLater(events, now)
    ensures var (servers, log) := Life(BucketsFor(window), events);
            SumAfter(servers[0].buckets, now - window) == Sum(PerServer(log, servers.Keys, now - window))
  {
    var n := BucketsFor(window);
    WindowIsExact(window, events, 0, now);
    ServersAreKept(n, events);
    AggregateShowsAll(Life(n, events).0, n, Life(n, events).1, now - window);
  }

  lemma Overwrite(m: Rings, k: nat, a: Ring, b: Ring)
    ensures m[k := a][k := b] == m[k := b]
  {
  }

  /** The rings are what these records and flushes, by a clock that never went back, leave. */
  ghost predicate Left(servers: Rings, n: nat, events: seq<MeterEvent>) {
    n > 1 && ClockNeverGoesBack(events) && servers == Life(n, events).0
  }

  lemma ClockGoesOn(events: seq<MeterEvent>, e: MeterEvent)
    requires ClockNeverGoesBack(events) && (e.Recording? ==> e.t.at >= SECOND && NoneLater(events, e.t.at))
    ensures ClockNeverGoesBack(events + [e])
  {
  }

  lemma LifeGoesOn(servers: Rings, n: nat, events: seq<MeterEvent>, e: MeterEvent)
    requires Left(servers, n, events) && Sized(servers, n)
    requires e.Recording? ==> e.t.at >= SECOND && NoneLater(events, e.t.at)
    ensures Left(if e.Recording? then Recorded(servers, n, e.t) else AllFlushed(servers), n, events + [e])
  {
    ClockGoesOn(events, e);
    assert (events + [e])[..|events|] == events;
  }

  function Rate(total: int, window: int): real
    requires window > 0
  {
    total as real / (window as real / SECOND as real)
  }

  /** The rate is in bytes per second: it takes the window's length in seconds to come to the total. */
  lemma RateTakesTheWindow(total: int, window: int)
    requires window > 0
    ensures Rate(total, window) * (window as real) == total as real * 1_000_000_000.0
  {
    var seconds := window as real / 1_000_000_000.0;
    assert seconds * 1_000_000_000.0 == window as real;
    assert Rate(total, window) * seconds == total as real;
    assert Rate(total, window) * (seconds * 1_000_000_000.0) == (Rate(total, window) * seconds) * 1_000_000_000.0;
  }

  /** All that was ever recorded for a server, or for the aggregate. */
  function RecordedFor(events: seq<MeterEvent>, server: nat): int
    decreases |events|
  {
    if events == [] then 0
    else
      var last := events[|events| - 1];
      RecordedFor(events[..|events| - 1], server)
      + if last.Recording? && (server == 0 || last.t.server == server) then last.t.n else 0
  }

  /** A ring's lifetime total is everything recorded for it since the start; no flush takes anything off. */
  lemma {:induction false} LifetimeIsExact(n: nat, events: seq<MeterEvent>, server: nat)
    requires n > 1
    ensures RingOf(Life(n, events).0, n, server).lifetime == RecordedFor(events, server)
    decreases |events|
  {
    if events != [] {
      LifetimeIsExact(n, events[..|events| - 1], server);
    }
  }

  lemma RateIsExact(servers: Rings, window: int, n: nat, events: seq<MeterEvent>, server: nat, now: int)
    requires window > 0 && n == BucketsFor(window) && Left(servers, n, events) && NoneLater(events, now)
    ensures SumAfter(RingOf(servers, n, server).buckets, now - window) == SumOf(Given(Life(n, events).1, server), now - window)
  {
    WindowIsExact(window, events, server, now);
  }

  class Meter {
    const window: int
    const bucketN: nat
    var servers: map<nat, ServerState>
    // A history: every record and flush so far.
    ghost var events: seq<MeterEvent>

    ghost predicate Valid()
      reads this`servers
    {
      && window > 0 && bucketN == BucketsFor(window) && 0 in servers
      && (forall k | k in servers :: servers[k].buckets.Length == bucketN)
      && (forall j, k | j in servers && k in servers && j != k ::
            servers[j] != servers[k] && servers[j].buckets != servers[k].buckets)
    }

    ghost function Arrays(): set<array<Bucket>>
      reads this`servers
    {
      set k | k in servers :: servers[k].buckets
    }

    ghost function Model(): Rings
      reads this`servers, servers.Values, Arrays()
    {
      map k | k in servers :: servers[k].Model()
    }

    /** What the rings hold is what the records and flushes so far, by a clock that never went back, leave. */
    ghost predicate UpToDate()
      reads this, servers.Values, Arrays()
    {
      Valid() && Left(Model(), bucketN, events)
    }

    /** No ring has been exchanged; any other is new. */
    twostate predicate Grown()
      reads this`servers
    {
      && old(servers.Keys) <= servers.Keys
      && forall k | k in servers ::
           if k in old(servers) then servers[k] == old(servers)[k] else fresh(servers[k]) && fresh(servers[k].buckets)
    }

    constructor (window: int)
      ensures UpToDate() && events == [] && fresh(servers.Values) && fresh(Arrays())
      ensures this.window == if window <= 0 then SECOND else window
    {
      var w := if window <= 0 then SECOND else window;
      this.window := w;
      bucketN := BucketsFor(w);
      var total := new ServerState(BucketsFor(w));
      servers := map[0 := total];
      events := [];
      new;
      assert Model() == map[0 := NewRing(bucketN)];
    }

    method Track(server: nat, s: ServerState)
      requires Valid() && server !in servers && s.buckets.Length == bucketN
      requires forall k | k in servers :: servers[k] != s && servers[k].buckets != s.buckets
      modifies this`servers
      ensures Valid() && servers == old(servers)[server := s] && Model() == old(Model())[server := s.Model()]
    {
      servers := servers[server := s];
      assert Model() == old(Model())[server := s.Model()];
    }

    method Create(server: nat) returns (s: ServerState)
      requires Valid() && server !in servers
      modifies this`servers
      ensures Valid() && servers == old(servers)[server := s] && fresh(s) && fresh(s.buckets)
      ensures Model() == old(Model())[server := NewRing(bucketN)]
    {
      s := new ServerState(bucketN);
      Track(server, s);
    }

    /** The server's ring, made on its first record. */
    method GetOrCreate(server: nat) returns (s: ServerState)
      requires Valid()
      modifies this`servers
      ensures Valid() && servers == old(servers)[server := s]
      ensures if server in old(servers) then s == old(servers)[server] else fresh(s) && fresh(s.buckets)
      ensures Model() == old(Model())[server := RingOf(old(Model()), bucketN, server)]
    {
      if server in servers {
        s := servers[server];
      } else {
        s := Create(server);
      }
    }

    method Credit(server: nat, now: int, n: int)
      requires Valid() && server in servers
      modifies servers[server], servers[server].buckets
      ensures Valid() && Model() == old(Model())[server := Add(old(Model())[server], now, n)]
    {
      servers[server].Record(now, n);
      OneRingChanged(server);
    }

    twostate lemma OneRingChanged(server: nat)
      requires old(Valid()) && server in old(servers) && servers == old(servers)
      requires forall k | k in servers && k != server :: servers[k].Model() == old(servers[k].Model())
      ensures Model() == old(Model())[server := servers[server].Model()]
    {
    }

    /** A named server's bytes go to its own ring. */
    method CreditNamed(server: nat, now: int, n: int)
      requires Valid() && server != 0
      modifies this`servers, servers.Values, Arrays()
      ensures Valid() && Grown()
      ensures Model() == old(Model())[server := Add(RingOf(old(Model()), bucketN, server), now, n)]
    {
      ghost var before := Model();
      var s := GetOrCreate(server);
      Credit(server, now, n);
      Overwrite(before, server, RingOf(before, bucketN, server), Model()[server]);
    }

    method CreditAll(server: nat, now: int, n: int)
      requires Valid()
      modifies this`servers, servers.Values, Arrays()
      ensures Valid() && Grown() && Model() == Recorded(old(Model()), bucketN, Traffic(server, now, n))
    {
      if server != 0 {
        CreditNamed(server, now, n);
      }
      Credit(0, now, n);
    }

    lemma RingsAreSized()
      requires Valid()
      ensures Sized(Model(), bucketN)
    {
    }

    /** Record, and let the history be whatever it leads to. */
    method RecordInto(server: nat, now: int, n: int, ghost rings: Rings, ghost next: seq<MeterEvent>)
      requires Valid() && Sized(Model(), bucketN) && rings == Recorded(Model(), bucketN, Traffic(server, now, n))
      requires Left(rings, bucketN, next)
      modifies this`servers, this`events, servers.Values, Arrays()
      ensures UpToDate() && Grown() && events == next
    {
      CreditAll(server, now, n);
      Note(rings, next);
    }

    method Record(server: nat, now: int, n: int)
      requires UpToDate() && now >= SECOND && NoneLater(events, now)
      modifies this`servers, this`events, servers.Values, Arrays()
      ensures UpToDate() && Grown() && events == old(events) + [Recording(Traffic(server, now, n))]
    {
      RingsAreSized();
      ghost var t := Traffic(server, now, n);
      LifeGoesOn(Model(), bucketN, events, Recording(t));
      RecordInto(server, now, n, Recorded(Model(), bucketN, t), events + [Recording(t)]);
    }

    method ResetOne(server: nat)
      requires Valid() && server in servers
      modifies servers[server], servers[server].buckets
      ensures servers[server].Model() == Flushed(old(servers[server].Model()))
      ensures forall k | k in servers && k != server :: servers[k].Model() == old(servers[k].Model())
    {
      servers[server].Reset();
    }

    method FlushAll()
      requires Valid()
      modifies servers.Values, Arrays()
      ensures Valid() && Model() == AllFlushed(old(Model()))
    {
      var left := servers.Keys;
      while left != {}
        invariant left <= servers.Keys
        invariant forall k | k in left :: servers[k].Model() == old(servers[k].Model())
        invariant forall k | k in servers && k !in left :: servers[k].Model() == Flushed(old(servers[k].Model()))
        decreases |left|
      {
        var k :| k in left;
        left := left - {k};
        ResetOne(k);
      }
    }

    ghost method Note(rings: Rings, next: seq<MeterEvent>)
      requires Valid() && Model() == rings && Left(rings, bucketN, next)
      modifies this`events
      ensures UpToDate() && events == next
    {
      events := next;
    }

    method FlushInto(ghost rings: Rings, ghost next: seq<MeterEvent>)
      requires Valid() && rings == AllFlushed(Model()) && Left(rings, bucketN, next)
      modifies this`events, servers.Values, Arrays()
      ensures UpToDate() && servers == old(servers) && events == next
    {
      FlushAll();
      Note(rings, next);
    }

    /** Empty every ring, so that every rate reads zero at once; lifetimes stay. */
    method Flush()
      requires UpToDate()
      modifies this`events, servers.Values, Arrays()
      ensures UpToDate() && servers == old(servers) && events == old(events) + [Flushing]
    {
      RingsAreSized();
      LifeGoesOn(Model(), bucketN, events, Flushing);
      FlushInto(AllFlushed(Model()), events + [Flushing]);
    }

    method Within(server: nat, cutoff: int) returns (total: int)
      requires Valid()
      ensures total == SumAfter(RingOf(Model(), bucketN, server).buckets, cutoff)
    {
      if server !in servers {
        EmptyRingSums(bucketN, cutoff);
        return 0;
      }
      total := servers[server].Total(cutoff);
    }

    /**
     * The rolling rate, of a server or of all: the exact sum of the bytes recorded since the last flush whose
     * second is after now less the window, over the window.
     */
    method BPS(server: nat, now: int) returns (bps: real)
      requires UpToDate() && NoneLater(events, now)
      ensures bps == Rate(SumOf(Given(Life(bucketN, events).1, server), now - window), window)
    {
      RateIsExact(Model(), window, bucketN, events, server, now);
      var total := Within(server, now - window);
      bps := total as real / (window as real / SECOND as real);
    }
  }
}
