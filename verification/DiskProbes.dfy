/** Free-space queries share one statfs per directory, and a short-lived answer. */
module DiskProbes {

  import opened Types

  // Directories, cache entries and probes are told apart by number; a time of None has never been set.
  datatype Result = Free(bytes: int) | StatfsError

  /** One directory's cache entry. */
  datatype Entry = Entry(pending: Option<nat>, result: Result, fetchedAt: Option<int>)

  const EMPTY := Entry(None, StatfsError, None)

  /** A statfs under way, for a directory, to be recorded in an entry. */
  datatype Probe = Probe(dir: nat, entry: nat)

  /** A caller waiting on a probe since some time. */
  datatype Waiter = Waiter(entry: nat, probe: nat, since: int)

  /** An answer given to a caller: when it called, and when the probe behind the answer finished. */
  datatype Answer = Answer(since: int, result: Result, fetchedAt: Option<int>)

  datatype State = State(
    now: int,
    dirs: map<nat, nat>,
    entries: map<nat, Entry>,
    minted: nat,
    probes: map<nat, Probe>,
    waiters: map<nat, Waiter>,
    answers: seq<Answer>)

  /** The two windows the probe is built with. */
  datatype Limits = Limits(ttl: int, evictAfter: int)

  function Threshold(l: Limits): int {
    if l.evictAfter > l.ttl then l.evictAfter else l.ttl
  }

  predicate IsStale(e: Entry, now: int, l: Limits) {
    e.pending.None? && e.fetchedAt.Some? && now - e.fetchedAt.value > Threshold(l)
  }

  predicate IsFresh(e: Entry, now: int, l: Limits) {
    e.pending.None? && e.fetchedAt.Some? && now - e.fetchedAt.value < l.ttl
  }

  /** The directories an eviction sweep keeps. */
  function Swept(dirs: map<nat, nat>, entries: map<nat, Entry>, now: int, l: Limits): map<nat, nat>
    requires forall d | d in dirs :: dirs[d] in entries
  {
    map d | d in dirs && !IsStale(entries[dirs[d]], now, l) :: dirs[d]
  }

  datatype Event =
    | Tick(to: int)
    | Claim(caller: nat, dir: nat)
    | Complete(probe: nat, result: Result)
    | Collect(caller: nat)
    | Abandon(caller: nat)

  predicate Wired(s: State) {
    forall d | d in s.dirs :: s.dirs[d] in s.entries
  }

  predicate Enabled(s: State, e: Event) {
    && Wired(s)
    && match e
       case Tick(to) => s.now <= to
       case Claim(c, _) => c !in s.waiters
       case Complete(p, _) => p in s.probes && s.probes[p].entry in s.entries
       // The channel a waiter holds is closed once its probe is done.
       case Collect(c) => c in s.waiters && s.waiters[c].probe !in s.probes && s.waiters[c].entry in s.entries
       case Abandon(c) => c in s.waiters
  }

  /** Find or make the directory's entry, sweeping first when it has to be made. */
  function Locate(s: State, l: Limits, dir: nat): State
    requires Wired(s)
  {
    if dir in s.dirs then s
    else s.(dirs := Swept(s.dirs, s.entries, s.now, l)[dir := s.minted],
            entries := s.entries[s.minted := EMPTY], minted := s.minted + 1)
  }

  /** A statfs started for an entry, and waited for. */
  function Started(s: State, caller: nat, dir: nat, id: nat): State
    requires id in s.entries
  {
    s.(entries := s.entries[id := s.entries[id].(pending := Some(s.minted))],
       probes := s.probes[s.minted := Probe(dir, id)],
       waiters := s.waiters[caller := Waiter(id, s.minted, s.now)], minted := s.minted + 1)
  }

  /** At the located entry: answer from it, join the probe under way, or start one. */
  function ClaimAt(s: State, l: Limits, caller: nat, dir: nat, id: nat): State
    requires id in s.entries
  {
    var e := s.entries[id];
    if IsFresh(e, s.now, l) then s.(answers := s.answers + [Answer(s.now, e.result, e.fetchedAt)])
    else if e.pending.Some? then s.(waiters := s.waiters[caller := Waiter(id, e.pending.value, s.now)])
    else Started(s, caller, dir, id)
  }

  function Happen(s: State, l: Limits, e: Event): State
    requires Enabled(s, e)
  {
    match e
    case Tick(to) => s.(now := to)
    case Claim(c, dir) =>
      var t := Locate(s, l, dir);
      ClaimAt(t, l, c, dir, t.dirs[dir])
    case Complete(p, result) =>
      s.(entries := s.entries[s.probes[p].entry := Entry(None, result, Some(s.now))], probes := s.probes - {p})
    case Collect(c) =>
      var e := s.entries[s.waiters[c].entry];
      s.(answers := s.answers + [Answer(s.waiters[c].since, e.result, e.fetchedAt)], waiters := s.waiters - {c})
    case Abandon(c) => s.(waiters := s.waiters - {c})
  }

  ghost function History(l: Limits, events: seq<Event>): State
    decreases |events|
  {
    if events == [] then State(0, map[], map[], 0, map[], map[], [])
    else
      var s := History(l, events[..|events| - 1]);
      if Enabled(s, events[|events| - 1]) then Happen(s, l, events[|events| - 1]) else s
  }

  // ----- what every history keeps

  /** A running probe is the one its directory's entry is pending on: the entry cannot have been evicted. */
  ghost predicate ProbesAttached(s: State) {
    forall p | p in s.probes ::
      && p < s.minted
      && s.probes[p].dir in s.dirs && s.dirs[s.probes[p].dir] == s.probes[p].entry
      && s.probes[p].entry in s.entries && s.entries[s.probes[p].entry].pending == Some(p)
  }

  ghost predicate EntriesSound(s: State) {
    && (forall d | d in s.dirs :: s.dirs[d] in s.entries)
    && (forall d, c | d in s.dirs && c in s.dirs && s.dirs[d] == s.dirs[c] :: d == c)
    && (forall i | i in s.entries :: i < s.minted)
    && (forall i | i in s.entries && s.entries[i].pending.Some? ::
          s.entries[i].pending.value in s.probes && s.probes[s.entries[i].pending.value].entry == i)
    && (forall i | i in s.entries && s.entries[i].fetchedAt.Some? :: s.entries[i].fetchedAt.value <= s.now)
  }

  /** A waiter's probe is still running, or its entry was filled no earlier than the wait began. */
  ghost predicate WaitersSound(s: State) {
    forall c | c in s.waiters ::
      && s.waiters[c].entry in s.entries && s.waiters[c].since <= s.now
      && (s.waiters[c].probe in s.probes ==> s.probes[s.waiters[c].probe].entry == s.waiters[c].entry)
      && (s.waiters[c].probe !in s.probes ==>
            s.waiters[c].probe < s.minted
            && s.entries[s.waiters[c].entry].fetchedAt.Some?
            && s.waiters[c].since <= s.entries[s.waiters[c].entry].fetchedAt.value)
  }

  ghost predicate AnswersSound(s: State, l: Limits) {
    forall i | 0 <= i < |s.answers| ::
      IsCurrent(s.answers[i], l)
  }

  /** The probe behind it finished after the call began, or less than ttl before. */
  ghost predicate IsCurrent(a: Answer, l: Limits) {
    a.fetchedAt.Some? && (a.since <= a.fetchedAt.value || a.since - a.fetchedAt.value < l.ttl)
  }

  ghost predicate Sound(s: State, l: Limits) {
    ProbesAttached(s) && EntriesSound(s) && WaitersSound(s) && AnswersSound(s, l)
  }

  lemma LocateKeepsSound(s: State, l: Limits, dir: nat)
    requires Sound(s, l)
    ensures Sound(Locate(s, l, dir), l) && dir in Locate(s, l, dir).dirs && Locate(s, l, dir).now == s.now
  {
  }

  /** The claim finds the directory's entry neither fresh nor pending. */
  ghost predicate Starts(s: State, l: Limits, dir: nat) {
    && dir in s.dirs && s.dirs[dir] in s.entries
    && !IsFresh(s.entries[s.dirs[dir]], s.now, l) && s.entries[s.dirs[dir]].pending.None?
  }

  lemma StartAttaches(s: State, l: Limits, c: nat, dir: nat)
    requires ProbesAttached(s) && EntriesSound(s) && Starts(s, l, dir)
    ensures ProbesAttached(Started(s, c, dir, s.dirs[dir]))
  {
    forall p | p in s.probes ensures s.probes[p].entry != s.dirs[dir] {
      assert s.entries[s.probes[p].entry].pending == Some(p);
    }
  }

  lemma StartKeepsEntries(s: State, l: Limits, c: nat, dir: nat)
    requires ProbesAttached(s) && EntriesSound(s) && Starts(s, l, dir)
    ensures EntriesSound(Started(s, c, dir, s.dirs[dir]))
  {
    var t := Started(s, c, dir, s.dirs[dir]);
    forall i | i in t.entries && t.entries[i].pending.Some?
      ensures t.entries[i].pending.value in t.probes && t.probes[t.entries[i].pending.value].entry == i
    {
      if i != s.dirs[dir] {
        assert s.entries[i].pending == t.entries[i].pending;
      }
    }
  }

  lemma StartKeepsWaiters(s: State, l: Limits, c: nat, dir: nat)
    requires ProbesAttached(s) && WaitersSound(s) && Starts(s, l, dir) && c !in s.waiters
    ensures WaitersSound(Started(s, c, dir, s.dirs[dir]))
  {
    var t := Started(s, c, dir, s.dirs[dir]);
    forall d | d in s.waiters ensures t.waiters[d] == s.waiters[d] && s.waiters[d].probe != s.minted {
      assert s.minted !in s.probes;
    }
  }

  lemma ClaimKeepsSound(s: State, l: Limits, c: nat, dir: nat)
    requires Sound(s, l) && c !in s.waiters && dir in s.dirs
    ensures Sound(ClaimAt(s, l, c, dir, s.dirs[dir]), l)
  {
    var e := s.entries[s.dirs[dir]];
    if !IsFresh(e, s.now, l) && e.pending.None? {
      assert ClaimAt(s, l, c, dir, s.dirs[dir]) == Started(s, c, dir, s.dirs[dir]);
      StartAttaches(s, l, c, dir);
      StartKeepsEntries(s, l, c, dir);
      StartKeepsWaiters(s, l, c, dir);
    }
  }

  /** A probe that completes fills the entry it was started for, no earlier than anyone began to wait for it. */
  lemma CompleteKeepsSound(s: State, l: Limits, p: nat, result: Result)
    requires Sound(s, l) && Enabled(s, Complete(p, result))
    ensures Sound(Happen(s, l, Complete(p, result)), l)
  {
    var t := Happen(s, l, Complete(p, result));
    forall q | q in t.probes ensures s.probes[q].entry != s.probes[p].entry {
      assert s.entries[s.probes[q].entry].pending == Some(q);
    }
  }

  lemma EventKeepsSound(s: State, l: Limits, e: Event)
    requires Sound(s, l) && Enabled(s, e)
    ensures Sound(Happen(s, l, e), l)
  {
    match e
    case Claim(c, dir) =>
      LocateKeepsSound(s, l, dir);
      ClaimKeepsSound(Locate(s, l, dir), l, c, dir);
    case Complete(p, result) => CompleteKeepsSound(s, l, p, result);
    case _ =>
  }

  lemma {:induction false} HistoryIsSound(l: Limits, events: seq<Event>)
    ensures Sound(History(l, events), l)
    decreases |events|
  {
    if events != [] {
      var s := History(l, events[..|events| - 1]);
      HistoryIsSound(l, events[..|events| - 1]);
      if Enabled(s, events[|events| - 1]) {
        EventKeepsSound(s, l, events[|events| - 1]);
      }
    }
  }

  /** However claims, completions, evictions and abandoned waits interleave, no two statfs calls run for one directory. */
  lemma OneProbePerDirectory(l: Limits, events: seq<Event>, p: nat, q: nat)
    requires p in History(l, events).probes && q in History(l, events).probes
    requires History(l, events).probes[p].dir == History(l, events).probes[q].dir
    ensures p == q
  {
    HistoryIsSound(l, events);
  }

  /** No claim evicts an entry with a probe running, or one that could still answer. */
  lemma EvictionSparesTheLiving(l: Limits, events: seq<Event>, dir: nat, d: nat)
    requires d in History(l, events).dirs
    ensures var s := History(l, events);
            && Wired(s)
            && (d !in Locate(s, l, dir).dirs ==>
                  s.entries[s.dirs[d]].pending.None? && !IsFresh(s.entries[s.dirs[d]], s.now, l))
  {
    HistoryIsSound(l, events);
  }

  lemma AnswersAreCurrent(l: Limits, events: seq<Event>, i: nat)
    requires i < |History(l, events).answers|
    ensures IsCurrent(History(l, events).answers[i], l)
  {
    HistoryIsSound(l, events);
  }

  // ----- claims, told by the probes themselves

  /** The last statfs of a directory to have finished: what it found, and when. */
  datatype Done = Done(result: Result, at: int)

  ghost function LastDone(l: Limits, events: seq<Event>, dir: nat): Option<Done>
    decreases |events|
  {
    if events == [] then None
    else
      var s, e := History(l, events[..|events| - 1]), events[|events| - 1];
      if Enabled(s, e) && e.Complete? && s.probes[e.probe].dir == dir then Some(Done(e.result, s.now))
      else LastDone(l, events[..|events| - 1], dir)
  }

  ghost predicate Running(s: State, dir: nat) {
    exists p :: p in s.probes && s.probes[p].dir == dir
  }

  ghost predicate Recent(last: Option<Done>, now: int, ttl: int) {
    last.Some? && now - last.value.at < ttl
  }

  /** An entry tells of the last statfs of its directory; a directory without one has none recent enough to tell of. */
  ghost predicate Remembers(s: State, l: Limits, dir: nat, last: Option<Done>) {
    && (dir in s.dirs ==> s.dirs[dir] in s.entries)
    && (last.Some? ==> last.value.at <= s.now)
    && (if dir in s.dirs && s.entries[s.dirs[dir]].fetchedAt.Some?
        then last == Some(Done(s.entries[s.dirs[dir]].result, s.entries[s.dirs[dir]].fetchedAt.value))
        else !Recent(last, s.now, l.ttl))
    && (dir in s.dirs ==> s.entries[s.dirs[dir]].pending.Some? || s.entries[s.dirs[dir]].fetchedAt.Some?)
  }

  lemma PendingIsRunning(s: State, l: Limits, dir: nat)
    requires Sound(s, l)
    ensures Running(s, dir) <==> dir in s.dirs && s.entries[s.dirs[dir]].pending.Some?
  {
    if dir in s.dirs && s.entries[s.dirs[dir]].pending.Some? {
      var p := s.entries[s.dirs[dir]].pending.value;
      assert p in s.probes && s.probes[p].dir == dir;
    }
  }

  lemma LocateElsewhereRemembers(s: State, l: Limits, d: nat, dir: nat, last: Option<Done>)
    requires Sound(s, l) && Remembers(s, l, dir, last) && dir != d
    ensures var t := Locate(s, l, d);
            && Remembers(t, l, dir, last) && d in t.dirs && t.dirs[d] in t.entries
            && (dir in t.dirs ==> t.dirs[dir] != t.dirs[d])
  {
    LocateKeepsSound(s, l, d);
  }

  lemma ClaimAtRemembers(t: State, l: Limits, c: nat, d: nat, dir: nat, last: Option<Done>)
    requires Remembers(t, l, dir, last) && d in t.dirs && t.dirs[d] in t.entries
    requires dir in t.dirs ==> t.dirs[dir] != t.dirs[d]
    ensures Remembers(ClaimAt(t, l, c, d, t.dirs[d]), l, dir, last)
  {
  }

  lemma ClaimElsewhereRemembers(s: State, l: Limits, c: nat, d: nat, dir: nat, last: Option<Done>)
    requires Sound(s, l) && c !in s.waiters && Remembers(s, l, dir, last) && dir != d
    ensures Remembers(Happen(s, l, Claim(c, d)), l, dir, last)
  {
    LocateElsewhereRemembers(s, l, d, dir, last);
    ClaimAtRemembers(Locate(s, l, d), l, c, d, dir, last);
  }

  lemma ClaimHereRemembers(s: State, l: Limits, c: nat, dir: nat, last: Option<Done>)
    requires Sound(s, l) && c !in s.waiters && Remembers(s, l, dir, last)
    ensures Remembers(Happen(s, l, Claim(c, dir)), l, dir, last)
  {
  }

  lemma ClaimRemembers(s: State, l: Limits, c: nat, d: nat, dir: nat, last: Option<Done>)
    requires Sound(s, l) && c !in s.waiters && Remembers(s, l, dir, last)
    ensures Remembers(Happen(s, l, Claim(c, d)), l, dir, last)
  {
    if dir == d {
      ClaimHereRemembers(s, l, c, dir, last);
    } else {
      ClaimElsewhereRemembers(s, l, c, d, dir, last);
    }
  }

  lemma CompleteRemembers(s: State, l: Limits, p: nat, result: Result, dir: nat, last: Option<Done>)
    requires Sound(s, l) && Enabled(s, Complete(p, result)) && Remembers(s, l, dir, last)
    ensures Remembers(Happen(s, l, Complete(p, result)), l, dir,
                      if s.probes[p].dir == dir then Some(Done(result, s.now)) else last)
  {
  }

  lemma {:induction false} HistoryRemembers(l: Limits, events: seq<Event>, dir: nat)
    ensures Remembers(History(l, events), l, dir, LastDone(l, events, dir))
    decreases |events|
  {
    if events != [] {
      var most, e := events[..|events| - 1], events[|events| - 1];
      var s := History(l, most);
      HistoryIsSound(l, most);
      HistoryRemembers(l, most, dir);
      if Enabled(s, e) {
        match e
        case Claim(c, d) => ClaimRemembers(s, l, c, d, dir, LastDone(l, most, dir));
        case Complete(p, result) => CompleteRemembers(s, l, p, result, dir, LastDone(l, most, dir));
        case _ =>
      }
    }
  }

  /** One probe more than before, for this directory, and waited for by this caller. */
  ghost predicate OneMoreProbe(s: State, t: State, c: nat, dir: nat) {
    && c in t.waiters && t.waiters[c].probe !in s.probes && t.waiters[c].since == s.now
    && t.waiters[c].probe in t.probes && t.probes[t.waiters[c].probe].dir == dir
    && t.probes - {t.waiters[c].probe} == s.probes && t.answers == s.answers
  }

  /** The caller waits for the probe already running for this directory. */
  ghost predicate Joins(s: State, t: State, c: nat, dir: nat) {
    && c in t.waiters && t.waiters[c].since == s.now
    && t.waiters[c].probe in s.probes && s.probes[t.waiters[c].probe].dir == dir
    && t.probes == s.probes && t.answers == s.answers
  }

  /**
   * Over every history, a claim starts a statfs if and only if the directory has none running and none
   * finished less than ttl ago. Else it joins the one running; or, with none running, it is answered at
   * once with what the last one found.
   */
  lemma ClaimIsExact(l: Limits, events: seq<Event>, c: nat, dir: nat)
    requires c !in History(l, events).waiters
    ensures var s := History(l, events);
            && Enabled(s, Claim(c, dir))
            && var t, last := Happen(s, l, Claim(c, dir)), LastDone(l, events, dir);
               var recent := last.Some? && s.now - last.value.at < l.ttl;
               && (t.probes != s.probes <==> !Running(s, dir) && !recent)
               && (!Running(s, dir) && !recent ==> OneMoreProbe(s, t, c, dir))
               && (Running(s, dir) ==> Joins(s, t, c, dir))
               && (!Running(s, dir) && recent ==>
                     && t.answers == s.answers + [Answer(s.now, last.value.result, Some(last.value.at))]
                     && t.probes == s.probes && t.waiters == s.waiters)
  {
    var s := History(l, events);
    HistoryIsSound(l, events);
    HistoryRemembers(l, events, dir);
    PendingIsRunning(s, l, dir);
    ClaimDoes(s, l, c, dir, LastDone(l, events, dir));
  }

  lemma ClaimDoes(s: State, l: Limits, c: nat, dir: nat, last: Option<Done>)
    requires Sound(s, l) && Remembers(s, l, dir, last) && c !in s.waiters
    requires Running(s, dir) <==> dir in s.dirs && s.entries[s.dirs[dir]].pending.Some?
    ensures var t := Happen(s, l, Claim(c, dir));
            var recent := last.Some? && s.now - last.value.at < l.ttl;
            && (!Running(s, dir) && !recent ==> OneMoreProbe(s, t, c, dir))
            && (Running(s, dir) ==> Joins(s, t, c, dir))
            && (!Running(s, dir) && recent ==>
                  && t.answers == s.answers + [Answer(s.now, last.value.result, Some(last.value.at))]
                  && t.probes == s.probes && t.waiters == s.waiters)
  {
    var u := Locate(s, l, dir);
    LocateKeepsSound(s, l, dir);
    if !Running(s, dir) && !Recent(last, s.now, l.ttl) {
      assert Happen(s, l, Claim(c, dir)) == Started(u, c, dir, u.dirs[dir]);
      assert u.minted !in u.probes;
    }
  }

  /**
   * A claim for a directory the table does not know drops exactly the directories with nothing running whose
   * last statfs finished more than ttl and more than evictAfter ago; any other claim drops none.
   */
  lemma EvictionIsExact(l: Limits, events: seq<Event>, c: nat, dir: nat, d: nat)
    requires c !in History(l, events).waiters && d != dir && d in History(l, events).dirs
    ensures var s := History(l, events);
            && Enabled(s, Claim(c, dir))
            && var last := LastDone(l, events, d);
               d !in Happen(s, l, Claim(c, dir)).dirs <==>
                 && dir !in s.dirs && !Running(s, d) && last.Some?
                 && s.now - last.value.at > l.ttl && s.now - last.value.at > l.evictAfter
  {
    var s := History(l, events);
    HistoryIsSound(l, events);
    HistoryRemembers(l, events, d);
    PendingIsRunning(s, l, d);
    LocateKeepsSound(s, l, dir);
  }

  /** What a caller was told is what some statfs found, at the moment it finished. */
  ghost predicate Found(l: Limits, events: seq<Event>, result: Result, at: Option<int>) {
    exists k :: 0 <= k < |events| && events[k].Complete? && events[k].result == result
                && Enabled(History(l, events[..k]), events[k]) && at == Some(History(l, events[..k]).now)
  }

  ghost predicate EntriesFound(l: Limits, events: seq<Event>, s: State) {
    && (forall i | i in s.entries && s.entries[i].fetchedAt.Some? :: Found(l, events, s.entries[i].result, s.entries[i].fetchedAt))
    && (forall i | 0 <= i < |s.answers| :: Found(l, events, s.answers[i].result, s.answers[i].fetchedAt))
  }

  lemma StillFound(l: Limits, events: seq<Event>, e: Event, result: Result, at: Option<int>)
    requires Found(l, events, result, at)
    ensures Found(l, events + [e], result, at)
  {
    var k :| 0 <= k < |events| && events[k].Complete? && events[k].result == result
             && Enabled(History(l, events[..k]), events[k]) && at == Some(History(l, events[..k]).now);
    assert (events + [e])[..k] == events[..k] && (events + [e])[k] == events[k];
  }

  lemma JustFound(l: Limits, events: seq<Event>, e: Event)
    requires Enabled(History(l, events), e) && e.Complete?
    ensures Found(l, events + [e], e.result, Some(History(l, events).now))
  {
    assert (events + [e])[..|events|] == events && (events + [e])[|events|] == e;
  }

  lemma EntriesStayFound(l: Limits, events: seq<Event>, e: Event, s: State)
    requires EntriesFound(l, events, s)
    ensures EntriesFound(l, events + [e], s)
  {
    forall i | i in s.entries && s.entries[i].fetchedAt.Some?
      ensures Found(l, events + [e], s.entries[i].result, s.entries[i].fetchedAt)
    {
      StillFound(l, events, e, s.entries[i].result, s.entries[i].fetchedAt);
    }
    forall i | 0 <= i < |s.answers| ensures Found(l, events + [e], s.answers[i].result, s.answers[i].fetchedAt) {
      StillFound(l, events, e, s.answers[i].result, s.answers[i].fetchedAt);
    }
  }

  lemma LocateKeepsFound(l: Limits, all: seq<Event>, s: State, dir: nat)
    requires Wired(s) && EntriesFound(l, all, s)
    ensures EntriesFound(l, all, Locate(s, l, dir))
  {
  }

  lemma ClaimKeepsFound(l: Limits, all: seq<Event>, t: State, c: nat, dir: nat)
    requires Wired(t) && dir in t.dirs && EntriesFound(l, all, t)
    ensures EntriesFound(l, all, ClaimAt(t, l, c, dir, t.dirs[dir]))
  {
  }

  lemma EventKeepsFound(l: Limits, all: seq<Event>, s: State, e: Event)
    requires Sound(s, l) && Enabled(s, e) && EntriesFound(l, all, s)
    requires e.Complete? ==> Found(l, all, e.result, Some(s.now))
    ensures EntriesFound(l, all, Happen(s, l, e))
  {
    if e.Claim? {
      LocateKeepsSound(s, l, e.dir);
      LocateKeepsFound(l, all, s, e.dir);
      ClaimKeepsFound(l, all, Locate(s, l, e.dir), e.caller, e.dir);
    }
  }

  /** Every answer ever given is what a statfs found, with the time it finished. */
  lemma {:induction false} AnswersAreReal(l: Limits, events: seq<Event>)
    ensures EntriesFound(l, events, History(l, events))
    decreases |events|
  {
    if events != [] {
      var most, e := events[..|events| - 1], events[|events| - 1];
      assert most + [e] == events;
      AnswersAreReal(l, most);
      EntriesStayFound(l, most, e, History(l, most));
      HistoryIsSound(l, most);
      if Enabled(History(l, most), e) {
        if e.Complete? {
          JustFound(l, most, e);
        }
        EventKeepsFound(l, events, History(l, most), e);
      }
    }
  }

  // ----- the table under its mutex

  class DiskProbe {
    const limits: Limits
    var dirs: map<nat, nat>
    var states: map<nat, Entry>

    ghost predicate Valid()
      reads this
    {
      forall d | d in dirs :: dirs[d] in states
    }

    constructor (limits: Limits)
      ensures Valid() && dirs == map[] && this.limits == limits
    {
      this.limits := limits;
      dirs := map[];
      states := map[];
    }

    /** Drop every idle entry past the threshold. */
    method EvictStale(now: int)
      requires Valid()
      modifies this
      ensures Valid() && states == old(states)
      ensures dirs == Swept(old(dirs), old(states), now, limits)
    {
      var left := dirs.Keys;
      while left != {}
        invariant left <= old(dirs).Keys && states == old(states)
        invariant dirs == map d | d in old(dirs) && (d in left || !IsStale(old(states)[old(dirs)[d]], now, limits)) ::
                            old(dirs)[d]
        decreases |left|
      {
        var d :| d in left;
        left := left - {d};
        if IsStale(states[dirs[d]], now, limits) {
          dirs := dirs - {d};
        }
      }
    }

    /** Answer from the cache, or name the entry and the probe to wait for, starting it if there is none. */
    method ClaimDir(dir: nat, now: int, next: nat) returns (hit: Option<Result>, entry: nat, probe: nat, started: bool)
      requires Valid() && (forall i | i in states :: i < next)
      modifies this
      ensures Valid()
      ensures var s := State(now, old(dirs), old(states), next, map[], map[], []);
              var t := Happen(s, limits, Claim(0, dir));
              && dirs == t.dirs && states == t.entries
              && (hit.Some? <==> t.answers != []) && (hit.Some? ==> hit.value == t.answers[0].result)
              && (hit.None? ==> t.waiters[0] == Waiter(entry, probe, now) && (started <==> probe in t.probes))
    {
      var minted := next;
      if dir !in dirs {
        EvictStale(now);
        states := states[minted := EMPTY];
        dirs := dirs[dir := minted];
        minted := minted + 1;
      }
      entry, probe, started, hit := dirs[dir], 0, false, None;
      var st := states[entry];
      if IsFresh(st, now, limits) {
        hit := Some(st.result);
        return;
      }
      if st.pending.None? {
        st := st.(pending := Some(minted));
        states := states[entry := st];
        started := true;
      }
      probe := st.pending.value;
    }

    /** A finished probe records its answer and is pending no more. */
    method FinishProbe(entry: nat, result: Result, now: int)
      requires Valid() && entry in states
      modifies this
      ensures Valid() && dirs == old(dirs)
      ensures states == old(states)[entry := Entry(None, result, Some(now))]
    {
      states := states[entry := Entry(None, result, Some(now))];
    }
  }
}
