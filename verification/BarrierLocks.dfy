/** One barrier at a time per job, whoever asks, and whenever the job is forgotten. */
module BarrierLocks {
  import opened Types

  /** A job's mutex with what is needed to drop it safely. Mutexes are told apart by number. */
  datatype Lock = Lock(mutex: nat, holders: int, forgotten: bool)

  datatype Locks = Locks(entries: map<JobId, Lock>, minted: nat)

  /** The job's mutex, minted if it has none, with one more holder counted. */
  function Acquire(l: Locks, job: JobId): (Locks, nat) {
    if job in l.entries then
      var e := l.entries[job];
      (l.(entries := l.entries[job := e.(holders := e.holders + 1)]), e.mutex)
    else
      (Locks(l.entries[job := Lock(l.minted, 1, false)], l.minted + 1), l.minted)
  }

  function Release(l: Locks, job: JobId): Locks {
    if job !in l.entries then l
    else
      var e := l.entries[job];
      var holders := if e.holders > 0 then e.holders - 1 else e.holders;
      if holders == 0 && e.forgotten then l.(entries := l.entries - {job})
      else l.(entries := l.entries[job := e.(holders := holders)])
  }

  function Forget(l: Locks, job: JobId): Locks {
    if job !in l.entries then l
    else if l.entries[job].holders == 0 then l.(entries := l.entries - {job})
    else l.(entries := l.entries[job := l.entries[job].(forgotten := true)])
  }

  // ----- callers, each at its own point between acquiring and releasing

  datatype Caller =
    | Waiting(job: JobId, mutex: nat)
    | Holding(job: JobId, mutex: nat)
    | Leaving(job: JobId)

  datatype Protocol = Protocol(locks: Locks, callers: map<nat, Caller>)

  datatype Turn =
    | AcquireLock(c: nat, job: JobId)
    | LockMutex(c: nat)
    | UnlockMutex(c: nat)
    | ReleaseLock(c: nat)
    // From anywhere, including from inside the barrier of the very job.
    | ForgetJobLock(job: JobId)

  ghost predicate Locked(p: Protocol, mutex: nat) {
    exists c :: c in p.callers && p.callers[c].Holding? && p.callers[c].mutex == mutex
  }

  ghost predicate Ready(p: Protocol, t: Turn) {
    match t
    case AcquireLock(c, _) => c !in p.callers
    case LockMutex(c) => c in p.callers && p.callers[c].Waiting? && !Locked(p, p.callers[c].mutex)
    case UnlockMutex(c) => c in p.callers && p.callers[c].Holding?
    case ReleaseLock(c) => c in p.callers && p.callers[c].Leaving?
    case ForgetJobLock(_) => true
  }

  function TakeTurn(p: Protocol, t: Turn): Protocol {
    match t
    case AcquireLock(c, job) =>
      var (l, mutex) := Acquire(p.locks, job);
      Protocol(l, p.callers[c := Waiting(job, mutex)])
    case LockMutex(c) =>
      if c in p.callers && p.callers[c].Waiting?
      then p.(callers := p.callers[c := Holding(p.callers[c].job, p.callers[c].mutex)]) else p
    case UnlockMutex(c) =>
      if c in p.callers then p.(callers := p.callers[c := Leaving(p.callers[c].job)]) else p
    case ReleaseLock(c) =>
      if c in p.callers then Protocol(Release(p.locks, p.callers[c].job), p.callers - {c}) else p
    case ForgetJobLock(job) => p.(locks := Forget(p.locks, job))
  }

  /** Any interleaving: a turn that cannot be taken is not. */
  ghost function Play(p: Protocol, turns: seq<Turn>): Protocol
    decreases |turns|
  {
    if turns == [] then p
    else
      var q := Play(p, turns[..|turns| - 1]);
      if Ready(q, turns[|turns| - 1]) then TakeTurn(q, turns[|turns| - 1]) else q
  }

  const IDLE := Protocol(Locks(map[], 0), map[])

  ghost function Users(p: Protocol, job: JobId): set<nat> {
    set c | c in p.callers && p.callers[c].job == job
  }

  // ----- what every interleaving keeps

  ghost predicate HoldersCounted(p: Protocol) {
    && (forall c | c in p.callers :: p.callers[c].job in p.locks.entries)
    && (forall job | job in p.locks.entries :: p.locks.entries[job].holders == |Users(p, job)|)
    && (forall job | job in p.locks.entries && p.locks.entries[job].forgotten :: p.locks.entries[job].holders > 0)
  }

  /** Every caller of a job is on the one mutex its entry holds, and no other job's entry holds that one. */
  ghost predicate OneMutex(p: Protocol) {
    && (forall c | c in p.callers && !p.callers[c].Leaving? ::
          p.callers[c].job in p.locks.entries && p.callers[c].mutex == p.locks.entries[p.callers[c].job].mutex)
    && (forall job | job in p.locks.entries :: p.locks.entries[job].mutex < p.locks.minted)
    && (forall j, k | j in p.locks.entries && k in p.locks.entries && p.locks.entries[j].mutex == p.locks.entries[k].mutex ::
          j == k)
  }

  ghost predicate Exclusive(p: Protocol) {
    forall c, d | c in p.callers && d in p.callers && p.callers[c].Holding? && p.callers[d].Holding?
        && p.callers[c].mutex == p.callers[d].mutex :: c == d
  }

  ghost predicate Orderly(p: Protocol) {
    HoldersCounted(p) && OneMutex(p) && Exclusive(p)
  }

  lemma UsersJoin(p: Protocol, q: Protocol, c: nat, job: JobId)
    requires c !in p.callers && c in q.callers && q.callers[c].job == job && q.callers - {c} == p.callers
    ensures forall j :: |Users(q, j)| == |Users(p, j)| + if j == job then 1 else 0
  {
    forall j ensures |Users(q, j)| == |Users(p, j)| + if j == job then 1 else 0 {
      forall d | d != c ensures d in Users(q, j) <==> d in Users(p, j) {
        assert d in q.callers <==> d in q.callers - {c};
      }
      if j == job {
        assert Users(q, j) == Users(p, j) + {c};
      } else {
        assert Users(q, j) == Users(p, j);
      }
    }
  }

  lemma UsersSame(p: Protocol, q: Protocol)
    requires q.callers.Keys == p.callers.Keys
    requires forall c | c in p.callers :: q.callers[c].job == p.callers[c].job
    ensures forall j :: Users(q, j) == Users(p, j)
  {
  }

  lemma AcquireKeepsCount(p: Protocol, c: nat, job: JobId)
    requires HoldersCounted(p) && c !in p.callers
    ensures HoldersCounted(TakeTurn(p, AcquireLock(c, job)))
  {
    var q := TakeTurn(p, AcquireLock(c, job));
    assert q.callers - {c} == p.callers;
    UsersJoin(p, q, c, job);
    if job !in p.locks.entries {
      assert Users(p, job) == {};
    }
    forall j | j in q.locks.entries ensures q.locks.entries[j].holders == |Users(q, j)| {
      assert |Users(q, j)| == |Users(p, j)| + if j == job then 1 else 0;
    }
  }

  lemma AcquireKeepsMutex(p: Protocol, c: nat, job: JobId)
    requires OneMutex(p) && HoldersCounted(p) && c !in p.callers
    ensures OneMutex(TakeTurn(p, AcquireLock(c, job)))
  {
  }

  lemma ReleaseKeepsCount(p: Protocol, c: nat)
    requires HoldersCounted(p) && c in p.callers && p.callers[c].Leaving?
    ensures HoldersCounted(TakeTurn(p, ReleaseLock(c)))
    ensures p.locks.entries[p.callers[c].job].holders > 0
  {
    var q := TakeTurn(p, ReleaseLock(c));
    var job := p.callers[c].job;
    UsersJoin(q, p, c, job);
    assert |Users(p, job)| == |Users(q, job)| + 1;
    forall d | d in q.callers ensures q.callers[d].job in q.locks.entries {
      if q.callers[d].job == job {
        assert d in Users(q, job);
        assert Users(q, job) != {};
      }
    }
    forall j | j in q.locks.entries ensures q.locks.entries[j].holders == |Users(q, j)| {
      assert |Users(p, j)| == |Users(q, j)| + if j == job then 1 else 0;
    }
  }

  lemma ReleaseKeepsMutex(p: Protocol, c: nat)
    requires OneMutex(p) && HoldersCounted(p) && c in p.callers && p.callers[c].Leaving?
    requires var q := TakeTurn(p, ReleaseLock(c)); forall d | d in q.callers :: q.callers[d].job in q.locks.entries
    ensures OneMutex(TakeTurn(p, ReleaseLock(c)))
  {
  }

  lemma ForgetKeepsOrder(p: Protocol, job: JobId)
    requires Orderly(p)
    ensures Orderly(TakeTurn(p, ForgetJobLock(job)))
  {
    var q := TakeTurn(p, ForgetJobLock(job));
    UsersSame(p, q);
    if job in p.locks.entries && p.locks.entries[job].holders == 0 {
      assert Users(p, job) == {};
      forall d | d in p.callers ensures p.callers[d].job != job {
        assert d !in Users(p, job);
      }
    }
  }

  lemma MutexKeepsOrder(p: Protocol, t: Turn)
    requires Orderly(p) && Ready(p, t) && (t.LockMutex? || t.UnlockMutex?)
    ensures Orderly(TakeTurn(p, t))
  {
    UsersSame(p, TakeTurn(p, t));
  }

  lemma TurnKeepsOrder(p: Protocol, t: Turn)
    requires Orderly(p) && Ready(p, t)
    ensures Orderly(TakeTurn(p, t))
  {
    match t
    case AcquireLock(c, job) =>
      AcquireKeepsCount(p, c, job);
      AcquireKeepsMutex(p, c, job);
    case ReleaseLock(c) =>
      ReleaseKeepsCount(p, c);
      ReleaseKeepsMutex(p, c);
    case ForgetJobLock(job) => ForgetKeepsOrder(p, job);
    case _ => MutexKeepsOrder(p, t);
  }

  lemma {:induction false} PlayKeepsOrder(turns: seq<Turn>)
    ensures Orderly(Play(IDLE, turns))
    decreases |turns|
  {
    if turns != [] {
      var q := Play(IDLE, turns[..|turns| - 1]);
      PlayKeepsOrder(turns[..|turns| - 1]);
      if Ready(q, turns[|turns| - 1]) {
        TurnKeepsOrder(q, turns[|turns| - 1]);
      }
    }
  }

  /**
   * Under every interleaving of acquiring, locking, unlocking, releasing and forgetting: no two callers
   * are inside a barrier of one job, and two that are waiting for or inside one job's barrier are on the
   * same mutex, which no other job shares.
   */
  lemma OneBarrierPerJob(turns: seq<Turn>, c: nat, d: nat)
    requires var p := Play(IDLE, turns);
             c in p.callers && d in p.callers && !p.callers[c].Leaving? && !p.callers[d].Leaving?
    ensures var p := Play(IDLE, turns);
            && (p.callers[c].job == p.callers[d].job <==> p.callers[c].mutex == p.callers[d].mutex)
            && (p.callers[c].Holding? && p.callers[d].Holding? && p.callers[c].job == p.callers[d].job ==> c == d)
  {
    PlayKeepsOrder(turns);
  }

  /** The holder count is the number of live callers, and an entry disappears only when there are none. */
  lemma EntryOutlivesItsCallers(turns: seq<Turn>, t: Turn, job: JobId)
    requires Ready(Play(IDLE, turns), t)
    ensures var p := Play(IDLE, turns);
            && (job in p.locks.entries ==> p.locks.entries[job].holders == |Users(p, job)|)
            && (job in p.locks.entries && job !in TakeTurn(p, t).locks.entries ==> Users(TakeTurn(p, t), job) == {})
  {
    PlayKeepsOrder(turns);
    TurnKeepsOrder(Play(IDLE, turns), t);
    var q := TakeTurn(Play(IDLE, turns), t);
    if job !in q.locks.entries {
      assert forall c | c in q.callers :: q.callers[c].job != job;
    }
  }

  // ----- which entries stay

  /** An entry there may be is on its way out. */
  ghost predicate Doomed(p: Protocol, job: JobId) {
    job in p.locks.entries ==> p.locks.entries[job].forgotten
  }

  /** This turn asks for the job's lock when nobody uses it. */
  ghost predicate StartsAnew(p: Protocol, t: Turn, job: JobId) {
    t.AcquireLock? && t.job == job && Users(p, job) == {}
  }

  lemma TurnKeepsDoomed(p: Protocol, t: Turn, job: JobId)
    requires Orderly(p) && Ready(p, t) && Doomed(p, job) && !StartsAnew(p, t, job)
    ensures Doomed(TakeTurn(p, t), job)
  {
    if t.AcquireLock? && t.job == job {
      var c :| c in Users(p, job);
      assert p.callers[c].job in p.locks.entries;
    }
  }

  lemma {:induction false} ForgottenStaysDoomed(turns: seq<Turn>, n: nat, job: JobId)
    requires n < |turns| && turns[n] == ForgetJobLock(job)
    requires forall k | n < k < |turns| :: !StartsAnew(Play(IDLE, turns[..k]), turns[k], job)
    ensures Doomed(Play(IDLE, turns), job)
    decreases |turns|
  {
    var last := |turns| - 1;
    if n < last {
      var most := turns[..last];
      forall k | n < k < |most| ensures !StartsAnew(Play(IDLE, most[..k]), most[k], job) {
        assert most[..k] == turns[..k];
      }
      ForgottenStaysDoomed(most, n, job);
      PlayKeepsOrder(most);
      if Ready(Play(IDLE, most), turns[last]) {
        TurnKeepsDoomed(Play(IDLE, most), turns[last], job);
      }
    }
  }

  lemma DoomedGoes(p: Protocol, job: JobId)
    requires HoldersCounted(p) && Doomed(p, job)
    ensures Users(p, job) == {} ==> job !in p.locks.entries
  {
  }

  /**
   * Once a job has been forgotten, by whomever and from wherever: as soon as it has no users, and until its
   * lock is asked for anew, it has no entry.
   */
  lemma ForgottenEntryGoes(turns: seq<Turn>, n: nat, job: JobId)
    requires n < |turns| && turns[n] == ForgetJobLock(job)
    requires forall k | n < k < |turns| :: !StartsAnew(Play(IDLE, turns[..k]), turns[k], job)
    ensures Users(Play(IDLE, turns), job) == {} ==> job !in Play(IDLE, turns).locks.entries
  {
    PlayKeepsOrder(turns);
    ForgottenStaysDoomed(turns, n, job);
    DoomedGoes(Play(IDLE, turns), job);
  }

  /** An entry that nobody forgets stays, with its mutex, however its users come and go. */
  lemma {:induction false} UnforgottenEntryStays(turns: seq<Turn>, n: nat, job: JobId)
    requires n <= |turns| && job in Play(IDLE, turns[..n]).locks.entries
    requires !Play(IDLE, turns[..n]).locks.entries[job].forgotten
    requires forall k | n <= k < |turns| :: turns[k] != ForgetJobLock(job)
    ensures var before, now := Play(IDLE, turns[..n]).locks, Play(IDLE, turns).locks;
            && job in now.entries && !now.entries[job].forgotten
            && now.entries[job].mutex == before.entries[job].mutex
    decreases |turns|
  {
    if n == |turns| {
      assert turns[..n] == turns;
    } else {
      var most := turns[..|turns| - 1];
      assert most[..n] == turns[..n];
      UnforgottenEntryStays(most, n, job);
    }
  }

  // ----- the application's table of locks

  class LockTable {
    var jobBarrierMu: map<JobId, Lock>
    // The next number an allocation will give: what tells a mutex from every earlier one.
    var minted: nat

    ghost function Model(): Locks
      reads this
    {
      Locks(jobBarrierMu, minted)
    }

    constructor ()
      ensures Model() == IDLE.locks
    {
      jobBarrierMu := map[];
      minted := 0;
    }

    method JobBarrierLock(jobID: JobId) returns (mutex: nat)
      modifies this
      ensures (Model(), mutex) == Acquire(old(Model()), jobID)
    {
      var e: Lock;
      if jobID in jobBarrierMu {
        e := jobBarrierMu[jobID];
      } else {
        e := Lock(minted, 0, false);
        minted := minted + 1;
      }
      e := e.(holders := e.holders + 1);
      jobBarrierMu := jobBarrierMu[jobID := e];
      mutex := e.mutex;
    }

    method ReleaseJobBarrierLock(jobID: JobId)
      modifies this
      ensures Model() == Release(old(Model()), jobID)
    {
      if jobID !in jobBarrierMu {
        return;
      }
      var e := jobBarrierMu[jobID];
      if e.holders > 0 {
        e := e.(holders := e.holders - 1);
      }
      if e.holders == 0 && e.forgotten {
        jobBarrierMu := jobBarrierMu - {jobID};
      } else {
        jobBarrierMu := jobBarrierMu[jobID := e];
      }
    }

    method ForgetJobBarrierState(jobID: JobId)
      modifies this
      ensures Model() == Forget(old(Model()), jobID)
    {
      if jobID !in jobBarrierMu {
        return;
      }
      if jobBarrierMu[jobID].holders == 0 {
        jobBarrierMu := jobBarrierMu - {jobID};
      } else {
        jobBarrierMu := jobBarrierMu[jobID := jobBarrierMu[jobID].(forgotten := true)];
      }
    }
  }
}
