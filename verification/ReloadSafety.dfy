/** A reload re-offers no article whose bytes are still on their way to a barrier. */
module ReloadSafety {
  import opened Types
  import opened MapFold
  import opened AtRisk

  // ----- total lengths

  ghost function Lengths(w: World, S: set<nat>): map<nat, int> {
    map t | t in S :: w.len(t)
  }

  ghost function Weight(w: World, S: set<nat>): int {
    Sum(Lengths(w, S))
  }

  lemma WeightAdd(w: World, S: set<nat>, t: nat)
    requires t !in S
    ensures Weight(w, S + {t}) == Weight(w, S) + w.len(t)
  {
    assert Lengths(w, S + {t}) == Lengths(w, S)[t := w.len(t)];
    SumUpdate(Lengths(w, S), t, w.len(t));
  }

  lemma WeightMono(w: World, S: set<nat>, T: set<nat>)
    requires S <= T
    ensures 0 <= Weight(w, S) <= Weight(w, T)
    decreases |T - S|
  {
    SumNonNegative(Lengths(w, S));
    if t :| t in T - S {
      assert T - (S + {t}) == T - S - {t};
      WeightMono(w, S + {t}, T);
      WeightAdd(w, S, t);
    } else {
      assert S == T;
    }
  }

  lemma Weightless(w: World)
    ensures Weight(w, {}) == 0
  {
    assert Lengths(w, {}) == map[];
  }

  lemma {:induction false} WeightUnion(w: World, A: set<nat>, B: set<nat>)
    requires A !! B
    ensures Weight(w, A + B) == Weight(w, A) + Weight(w, B)
    decreases |B|
  {
    if B == {} {
      Weightless(w);
      assert A + B == A;
    } else {
      var t :| t in B;
      WeightUnion(w, A, B - {t});
      WeightWithout(w, B, t);
      WeightWithout(w, A + B, t);
      assert A + B - {t} == A + (B - {t});
    }
  }

  lemma WeightWithout(w: World, S: set<nat>, t: nat)
    requires t in S
    ensures Weight(w, S) == Weight(w, S - {t}) + w.len(t)
  {
    WeightAdd(w, S - {t}, t);
    assert S - {t} + {t} == S;
  }

  lemma WeightSplits(w: World, S: set<nat>, T: set<nat>)
    ensures Weight(w, S) == Weight(w, S - T) + Weight(w, S * T)
  {
    WeightUnion(w, S - T, S * T);
    assert S - T + S * T == S;
  }

  /** A set weighs nothing exactly when all it holds is empty. */
  lemma WeighsNothing(w: World, S: set<nat>)
    ensures Weight(w, S) == 0 <==> forall t | t in S :: w.len(t) == 0
    decreases |S|
  {
    if t :| t in S {
      WeightWithout(w, S, t);
      WeighsNothing(w, S - {t});
      WeightMono(w, {}, S - {t});
    } else {
      assert S == {};
      Weightless(w);
    }
  }

  lemma WeightOfOne(w: World, S: set<nat>, t: nat)
    requires t in S
    ensures w.len(t) <= Weight(w, S)
  {
    SumBounds(Lengths(w, S), t);
  }

  // ----- where a delivery can be

  ghost predicate Placed(f: Flow) {
    && f.arrived <= f.seen && f.handling <= f.seen && f.sent <= f.seen && f.finishing <= f.seen
    && f.arrived !! f.handling && f.arrived !! f.sent && f.handling !! f.sent
    && f.finishing !! f.arrived && f.finishing !! f.handling && f.finishing !! f.unnoted
    && f.unnoted <= f.sent && f.counted <= f.sent && f.sent <= f.unnoted + f.counted
    && f.unnoted !! f.counted
  }

  /** The in-flight count is what has been taken from the channel and not yet finished. */
  ghost predicate InFlightCounted(f: Flow) {
    f.inFlight == |f.handling| + |f.unnoted| + |f.finishing|
  }

  lemma FlowStaysPlaced(w: World, s: State, e: FlowEvent)
    requires Placed(s.flow) && InFlightCounted(s.flow) && FlowEnabled(s.flow, e)
    ensures Placed(Flowing(w, s, e).flow) && InFlightCounted(Flowing(w, s, e).flow)
  {
  }

  // ----- first-in-first-out

  /** Nothing in S is queued behind m. */
  ghost predicate Ahead(reqs: seq<Msg>, m: Msg, S: set<nat>) {
    forall i, j | 0 <= i < j < |reqs| && reqs[i] == m && reqs[j].Put? :: reqs[j].t !in S
  }

  ghost predicate WaitsForList(c: Checkpoint) {
    c.stage.Asking? || c.stage.Listing?
  }

  ghost predicate HasList(c: Checkpoint) {
    c.stage.Answered? || c.stage.Draining?
  }

  function IdOf(m: Msg): Option<nat> {
    match m
    case Put(_) => None
    case ListFiles(id) => Some(id)
    case DrainOne(id, _) => Some(id)
    case ListJobs(id) => Some(id)
  }

  ghost predicate IdsMinted(s: State) {
    && (forall i | 0 <= i < |s.reqs| && IdOf(s.reqs[i]).Some? :: IdOf(s.reqs[i]).value < s.minted)
    && (forall j | j in s.checkpoints :: s.checkpoints[j].id < s.minted)
    && (forall j, k | j in s.checkpoints && k in s.checkpoints && s.checkpoints[j].id == s.checkpoints[k].id :: j == k)
  }

  /** What a checkpoint saw counted was queued ahead of its listing, and has been served once that is answered. */
  ghost predicate Ordered(s: State) {
    forall j | j in s.checkpoints ::
      var c := s.checkpoints[j];
      && c.before <= s.flow.counted
      && (WaitsForList(c) ==> Ahead(s.reqs, ListFiles(c.id), c.before))
      && (HasList(c) ==> Queued(s.reqs) !! c.before)
  }

  ghost predicate Fifo(s: State) {
    IdsMinted(s) && Ordered(s) && AtRiskNow(s) <= s.flow.sent
  }

  lemma QueuedAppend(reqs: seq<Msg>, m: Msg)
    ensures Queued(reqs + [m]) == Queued(reqs) + (if m.Put? then {m.t} else {})
  {
    forall t ensures t in Queued(reqs + [m]) <==> t in Queued(reqs) + (if m.Put? then {m.t} else {}) {
      if t in Queued(reqs) {
        var i :| 0 <= i < |reqs| && reqs[i].Put? && reqs[i].t == t;
        assert (reqs + [m])[i] == reqs[i];
      }
      if m.Put? && m.t == t {
        assert (reqs + [m])[|reqs|] == m;
      }
    }
  }

  lemma QueuedTail(reqs: seq<Msg>)
    requires reqs != []
    ensures Queued(reqs) == Queued(reqs[1..]) + (if reqs[0].Put? then {reqs[0].t} else {})
  {
  }

  lemma AheadTail(reqs: seq<Msg>, m: Msg, S: set<nat>)
    requires reqs != [] && Ahead(reqs, m, S)
    ensures Ahead(reqs[1..], m, S)
    ensures reqs[0] == m ==> Queued(reqs[1..]) !! S
  {
  }

  lemma AheadAppend(reqs: seq<Msg>, m: Msg, S: set<nat>, last: Msg)
    requires Ahead(reqs, m, S) && (last.Put? ==> last.t !in S)
    ensures Ahead(reqs + [last], m, S)
  {
  }

  lemma NewListingIsBehind(s: State, S: set<nat>)
    requires IdsMinted(s)
    ensures Ahead(s.reqs + [ListFiles(s.minted)], ListFiles(s.minted), S)
    ensures Ahead(s.reqs + [ListJobs(s.minted)], ListJobs(s.minted), S)
  {
  }

  lemma FlowStaysFifo(w: World, s: State, e: FlowEvent)
    requires Placed(s.flow) && Fifo(s) && FlowEnabled(s.flow, e)
    ensures Fifo(Flowing(w, s, e))
  {
  }

  lemma ServeKeepsIds(w: World, s: State, opens: bool, keep: bool)
    requires s.reqs != []
    ensures var t := ServeHead(w, s, opens, keep);
            && t.minted == s.minted && t.reqs == s.reqs[1..] && t.checkpoints.Keys == s.checkpoints.Keys
            && (forall j | j in s.checkpoints :: t.checkpoints[j].id == s.checkpoints[j].id)
  {
  }

  lemma ServeStaysMinted(w: World, s: State, opens: bool, keep: bool)
    requires IdsMinted(s) && s.reqs != []
    ensures IdsMinted(ServeHead(w, s, opens, keep))
  {
    var t := ServeHead(w, s, opens, keep);
    ServeKeepsIds(w, s, opens, keep);
    forall i | 0 <= i < |t.reqs| && IdOf(t.reqs[i]).Some? ensures IdOf(t.reqs[i]).value < t.minted {
      assert t.reqs[i] == s.reqs[i + 1];
    }
  }

  lemma ServeStaysOrdered(w: World, s: State, opens: bool, keep: bool)
    requires Ordered(s) && s.reqs != []
    ensures Ordered(ServeHead(w, s, opens, keep)) && AtRiskNow(ServeHead(w, s, opens, keep)) <= AtRiskNow(s)
  {
    var t := ServeHead(w, s, opens, keep);
    QueuedTail(s.reqs);
    forall j | j in t.checkpoints
      ensures WaitsForList(t.checkpoints[j]) ==> Ahead(t.reqs, ListFiles(t.checkpoints[j].id), t.checkpoints[j].before)
      ensures HasList(t.checkpoints[j]) ==> Queued(t.reqs) !! t.checkpoints[j].before
    {
      if WaitsForList(s.checkpoints[j]) {
        AheadTail(s.reqs, ListFiles(s.checkpoints[j].id), s.checkpoints[j].before);
      }
    }
  }

  lemma WorkerStaysFifo(w: World, s: State, e: WorkerEvent)
    requires Fifo(s) && WorkerEnabled(w, s, e)
    ensures Fifo(Working(w, s, e))
  {
    if e.Serve? {
      ServeStaysMinted(w, s, e.opens, e.keep);
      ServeStaysOrdered(w, s, e.opens, e.keep);
    }
  }

  /** A listing is asked for behind everything sent so far. */
  lemma AskStaysFifo(s: State, job: JobId, stage: Stage)
    requires Fifo(s) && job in s.checkpoints && (stage.Asking? || stage.Listing?)
    ensures Fifo(Ask(s, job, stage))
  {
    QueuedAppend(s.reqs, ListFiles(s.minted));
    NewListingIsBehind(s, s.checkpoints[job].before);
    forall j | j in s.checkpoints && WaitsForList(s.checkpoints[j])
      ensures Ahead(s.reqs + [ListFiles(s.minted)], ListFiles(s.checkpoints[j].id), s.checkpoints[j].before)
    {
      AheadAppend(s.reqs, ListFiles(s.checkpoints[j].id), s.checkpoints[j].before, ListFiles(s.minted));
    }
  }

  /** Barrier requests other than listings displace nothing. */
  lemma AppendStaysFifo(s: State, m: Msg, minted: nat)
    requires Fifo(s) && !m.Put? && minted >= s.minted && IdOf(m).value < minted
    ensures Fifo(s.(reqs := s.reqs + [m], minted := minted))
  {
  }

  lemma CheckpointStaysFifo(w: World, s: State, e: CheckpointEvent)
    requires Fifo(s) && CheckpointEnabled(s, e)
    ensures Fifo(Checking(w, s, e))
  {
    match e
    case AskFiles(job) => AskStaysFifo(s, job, Asking);
    case ListAgain(job) => AskStaysFifo(s, job, Listing(s.checkpoints[job].stage.pending));
    case SubmitDrain(job, key) => AppendStaysFifo(s, DrainOne(s.checkpoints[job].id, key), s.minted);
    case _ => SilentStepStaysFifo(w, s, e);
  }

  /** A call that takes the lock, or reads the figure, waits for no listing and has none. */
  lemma BeginStaysFifo(w: World, s: State, job: JobId)
    requires Fifo(s) && CheckpointEnabled(s, Begin(job))
    ensures Fifo(Checking(w, s, Begin(job)))
  {
  }

  lemma ReadStaysFifo(w: World, s: State, job: JobId)
    requires Fifo(s) && CheckpointEnabled(s, ReadPending(job))
    ensures Fifo(Checking(w, s, ReadPending(job)))
  {
  }

  /** A step of a checkpoint that asks the worker nothing. */
  lemma SilentStepStaysFifo(w: World, s: State, e: CheckpointEvent)
    requires Fifo(s) && CheckpointEnabled(s, e) && !e.AskFiles? && !e.ListAgain? && !e.SubmitDrain?
    ensures Fifo(Checking(w, s, e))
  {
    if e.Begin? {
      BeginStaysFifo(w, s, e.job);
    } else if e.ReadPending? {
      ReadStaysFifo(w, s, e.job);
    } else {
      FewerStayFifo(s, Checking(w, s, e));
    }
  }

  /** Calls have ended, and articles been acked. */
  lemma FewerStayFifo(s: State, t: State)
    requires Fifo(s) && t.reqs == s.reqs && t.held <= s.held && t.flow == s.flow && t.minted >= s.minted
    requires forall j | j in t.checkpoints :: j in s.checkpoints && t.checkpoints[j] == s.checkpoints[j]
    ensures Fifo(t)
  {
  }

  lemma ReloadStaysFifo(s: State, e: ReloadEvent)
    requires Fifo(s) && ReloadEnabled(s, e)
    ensures Fifo(Reloading(s, e))
  {
    if e.AskJobs? {
      AppendStaysFifo(s, ListJobs(s.minted), s.minted + 1);
    }
  }

  // ----- what a checkpoint has reached

  ghost predicate StageReached(stage: Stage, key: FileKey, t: nat) {
    match stage
    case Answered(some) => some
    case Draining(_, files, drained, got) => key in files && (key in drained ==> t in got)
    case _ => true
  }

  /** Everything counted when it last looked, and still held, is being drained. */
  ghost predicate Reached(w: World, s: State, job: JobId) {
    job in s.checkpoints && job !in s.retired ==>
      forall t | t in s.checkpoints[job].before && t in s.held && w.Job(t) == job ::
        StageReached(s.checkpoints[job].stage, w.file(t), t)
  }

  ghost predicate AllReached(w: World, s: State) {
    && (forall t | t in s.held && w.Job(t) !in s.retired :: w.file(t) in s.open)
    && (forall j :: Reached(w, s, j))
  }

  lemma ListingReaches(w: World, s: State, id: nat, opens: bool, keep: bool)
    requires AllReached(w, s) && s.reqs != [] && s.reqs[0] == ListFiles(id)
    ensures AllReached(w, ServeHead(w, s, opens, keep))
  {
    var t := ServeHead(w, s, opens, keep);
    forall j ensures Reached(w, t, j) {
      assert Reached(w, s, j);
      if j in s.checkpoints && j !in s.retired {
        forall x | x in s.held && w.Job(x) == j ensures w.file(x) in OpenOf(s, j) {
        }
      }
    }
  }

  lemma DrainReaches(w: World, s: State, id: nat, key: FileKey, opens: bool, keep: bool)
    requires AllReached(w, s) && s.reqs != [] && s.reqs[0] == DrainOne(id, key)
    ensures AllReached(w, ServeHead(w, s, opens, keep))
  {
    var t := ServeHead(w, s, opens, keep);
    forall j ensures Reached(w, t, j) {
      assert Reached(w, s, j);
    }
  }

  lemma PutReaches(w: World, s: State, opens: bool, keep: bool)
    requires AllReached(w, s) && Ordered(s) && s.reqs != [] && s.reqs[0].Put?
    ensures AllReached(w, ServeHead(w, s, opens, keep))
  {
    var t := ServeHead(w, s, opens, keep);
    QueuedTail(s.reqs);
    forall j ensures Reached(w, t, j) {
      assert Reached(w, s, j);
    }
  }

  lemma WorkerReaches(w: World, s: State, e: WorkerEvent)
    requires AllReached(w, s) && Ordered(s) && WorkerEnabled(w, s, e)
    ensures AllReached(w, Working(w, s, e))
  {
    var t := Working(w, s, e);
    if e.Serve? {
      match s.reqs[0]
      case Put(_) => PutReaches(w, s, e.opens, e.keep);
      case ListFiles(id) => ListingReaches(w, s, id, e.opens, e.keep);
      case DrainOne(id, key) => DrainReaches(w, s, id, key, e.opens, e.keep);
      case ListJobs(_) =>
        forall j ensures Reached(w, t, j) { assert Reached(w, s, j); }
    } else {
      forall j ensures Reached(w, t, j) { assert Reached(w, s, j); }
    }
  }

  lemma CheckpointReaches(w: World, s: State, e: CheckpointEvent)
    requires AllReached(w, s) && CheckpointEnabled(s, e)
    ensures AllReached(w, Checking(w, s, e))
  {
    var t := Checking(w, s, e);
    forall j ensures Reached(w, t, j) {
      assert Reached(w, s, j);
    }
  }

  lemma FlowReaches(w: World, s: State, e: FlowEvent)
    requires AllReached(w, s)
    ensures AllReached(w, Flowing(w, s, e))
  {
    forall j ensures Reached(w, Flowing(w, s, e), j) {
      assert Reached(w, s, j);
    }
  }

  lemma ReloadReaches(w: World, s: State, e: ReloadEvent)
    requires AllReached(w, s) && ReloadEnabled(s, e)
    ensures AllReached(w, Reloading(s, e))
  {
    forall j ensures Reached(w, Reloading(s, e), j) {
      assert Reached(w, s, j);
    }
  }

  // ----- what a checkpoint that succeeded has left behind

  ghost predicate NoneLeft(w: World, s: State, S: set<nat>, job: JobId) {
    job !in s.retired ==> forall t | t in S && w.Job(t) == job :: t !in AtRiskNow(s)
  }

  /** Nothing counted before a checkpoint that acked is at risk any more, nor is anything a settle has taken off. */
  ghost predicate Done(w: World, s: State) {
    && (forall j | j in s.checkpoints :: s.checkpoints[j].read <= s.checkpoints[j].before)
    && (forall i | i in s.tally.settling ::
          var c := s.tally.settling[i]; c.read <= c.before <= s.flow.counted && NoneLeft(w, s, c.before, c.job))
    && (forall j :: NoneLeft(w, s, TakenBy(s, j), j) && TakenBy(s, j) <= s.flow.counted)
  }

  /** Nothing comes to be at risk that was counted before. */
  lemma StillDone(w: World, s: State, t: State)
    requires Done(w, s) && t.tally.taken == s.tally.taken && s.retired <= t.retired && s.flow.counted <= t.flow.counted
    requires forall x | x in AtRiskNow(t) && x in s.flow.counted :: x in AtRiskNow(s)
    requires forall j | j in t.checkpoints :: t.checkpoints[j].read <= t.checkpoints[j].before
    requires forall i | i in t.tally.settling ::
               i in s.tally.settling && t.tally.settling[i].(swept := false) == s.tally.settling[i].(swept := false)
    ensures Done(w, t)
  {
    forall j ensures NoneLeft(w, t, TakenBy(t, j), j) && TakenBy(t, j) <= t.flow.counted {
      assert NoneLeft(w, s, TakenBy(s, j), j) && TakenBy(s, j) <= s.flow.counted;
    }
    forall i | i in t.tally.settling ensures NoneLeft(w, t, t.tally.settling[i].before, t.tally.settling[i].job) {
      assert NoneLeft(w, s, s.tally.settling[i].before, s.tally.settling[i].job);
    }
  }

  lemma FlowStaysDone(w: World, s: State, e: FlowEvent)
    requires Done(w, s) && Placed(s.flow) && FlowEnabled(s.flow, e)
    ensures Done(w, Flowing(w, s, e))
  {
    if e.Send? {
      QueuedAppend(s.reqs, Put(e.t));
    }
    StillDone(w, s, Flowing(w, s, e));
  }

  lemma ServeStaysDone(w: World, s: State, opens: bool, keep: bool)
    requires Done(w, s) && Ordered(s) && s.reqs != []
    ensures Done(w, ServeHead(w, s, opens, keep))
  {
    var t := ServeHead(w, s, opens, keep);
    ServeStaysOrdered(w, s, opens, keep);
    forall j | j in t.checkpoints ensures t.checkpoints[j].read <= t.checkpoints[j].before {
      assert s.checkpoints[j].read <= s.checkpoints[j].before;
      ServeReadsNothing(w, s, opens, keep, j);
    }
    StillDone(w, s, t);
  }

  lemma WorkerStaysDone(w: World, s: State, e: WorkerEvent)
    requires Done(w, s) && Ordered(s) && WorkerEnabled(w, s, e)
    ensures Done(w, Working(w, s, e))
  {
    if e.Serve? {
      ServeStaysDone(w, s, e.opens, e.keep);
    } else {
      StillDone(w, s, Working(w, s, e));
    }
  }

  /** All a job had counted when its checkpoint last looked is served, drained and acked. */
  lemma AckLeavesNone(w: World, s: State, job: JobId)
    requires Ordered(s) && AllReached(w, s) && CheckpointEnabled(s, AckJob(job))
    ensures NoneLeft(w, Checking(w, s, AckJob(job)), s.checkpoints[job].before, job)
  {
    assert Reached(w, s, job);
  }

  lemma AckStaysDone(w: World, s: State, job: JobId)
    requires Done(w, s) && Ordered(s) && AllReached(w, s) && CheckpointEnabled(s, AckJob(job))
    ensures Done(w, Checking(w, s, AckJob(job)))
  {
    var t := Checking(w, s, AckJob(job));
    AckLeavesNone(w, s, job);
    assert s.checkpoints[job].read <= s.checkpoints[job].before <= s.flow.counted;
    forall j ensures NoneLeft(w, t, TakenBy(t, j), j) && TakenBy(t, j) <= t.flow.counted {
      assert NoneLeft(w, s, TakenBy(s, j), j) && TakenBy(s, j) <= s.flow.counted;
    }
    forall i | i in t.tally.settling ensures NoneLeft(w, t, t.tally.settling[i].before, t.tally.settling[i].job) {
      if i != s.minted {
        assert NoneLeft(w, s, s.tally.settling[i].before, s.tally.settling[i].job);
      }
    }
  }

  lemma SettleStaysDone(w: World, s: State, call: nat)
    requires Done(w, s) && call in s.tally.settling
    ensures Done(w, Settled(w, s, call))
  {
    var c, t := s.tally.settling[call], Settled(w, s, call);
    forall j ensures NoneLeft(w, t, TakenBy(t, j), j) && TakenBy(t, j) <= t.flow.counted {
      assert NoneLeft(w, s, TakenBy(s, j), j) && NoneLeft(w, s, c.before, c.job);
    }
    forall i | i in t.tally.settling ensures NoneLeft(w, t, t.tally.settling[i].before, t.tally.settling[i].job) {
      assert NoneLeft(w, s, s.tally.settling[i].before, s.tally.settling[i].job);
    }
  }

  lemma CheckpointStaysDone(w: World, s: State, e: CheckpointEvent)
    requires Done(w, s) && Ordered(s) && AllReached(w, s) && CheckpointEnabled(s, e)
    ensures Done(w, Checking(w, s, e))
  {
    match e
    case AckJob(job) => AckStaysDone(w, s, job);
    case Settle(call) => SettleStaysDone(w, s, call);
    case AskFiles(job) =>
      QueuedAppend(s.reqs, ListFiles(s.minted));
      StillDone(w, s, Checking(w, s, e));
    case ListAgain(job) =>
      QueuedAppend(s.reqs, ListFiles(s.minted));
      StillDone(w, s, Checking(w, s, e));
    case SubmitDrain(job, key) =>
      QueuedAppend(s.reqs, DrainOne(s.checkpoints[job].id, key));
      StillDone(w, s, Checking(w, s, e));
    case _ => StillDone(w, s, Checking(w, s, e));
  }

  lemma ReloadStaysDone(w: World, s: State, e: ReloadEvent)
    requires Done(w, s) && ReloadEnabled(s, e)
    ensures Done(w, Reloading(s, e))
  {
    if e.AskJobs? {
      QueuedAppend(s.reqs, ListJobs(s.minted));
    }
    StillDone(w, s, Reloading(s, e));
  }

  // ----- the accumulator

  ghost function CountedAtRisk(w: World, s: State, job: JobId): set<nat> {
    set t | t in AtRiskNow(s) && t in s.flow.counted && w.Job(t) == job
  }

  /** The figure a checkpoint read and will settle, once it has read one. */
  function ReadBy(s: State, job: JobId): Option<int> {
    if job !in s.checkpoints then None
    else match s.checkpoints[job].stage
      case Noted(p) => Some(p)
      case Listing(p) => Some(p)
      case Draining(p, _, _, _) => Some(p)
      case _ => None
  }

  function Exempt(s: State): set<JobId> {
    s.retired + s.tally.overdrawn
  }

  function OfJob(w: World, S: set<nat>, job: JobId): set<nat> {
    set t | t in S && w.Job(t) == job
  }

  /** The entry is exactly what has been counted and not taken off. */
  ghost predicate Exact(w: World, s: State, job: JobId) {
    Pending(s.tally.bytes, job) == Weight(w, Untaken(w, s, job))
  }

  /** A figure read is the weight of what it stands for. */
  ghost predicate Figure(w: World, s: State, n: int, read: set<nat>, before: set<nat>, job: JobId) {
    read <= before <= s.flow.counted && n == Weight(w, OfJob(w, read, job))
  }

  ghost predicate Booked(w: World, s: State, job: JobId) {
    && Exact(w, s, job)
    && (ReadBy(s, job).Some? ==>
          Figure(w, s, ReadBy(s, job).value, s.checkpoints[job].read, s.checkpoints[job].before, job))
    && (forall i | i in s.tally.settling && s.tally.settling[i].job == job ::
          Figure(w, s, s.tally.settling[i].pending, s.tally.settling[i].read, s.tally.settling[i].before, job))
  }

  ghost predicate Books(w: World, s: State) {
    && (forall j | j in s.tally.bytes :: s.tally.bytes[j] > 0)
    && (forall j | j !in Exempt(s) :: Booked(w, s, j))
  }

  /** Nothing is counted, read or taken off: what was booked is booked. */
  lemma StillBooked(w: World, s: State, t: State, job: JobId)
    requires Booked(w, s, job) && Pending(t.tally.bytes, job) == Pending(s.tally.bytes, job)
    requires t.flow.counted == s.flow.counted && t.tally.taken == s.tally.taken
    requires ReadBy(t, job).Some? ==>
               && ReadBy(t, job) == ReadBy(s, job) && t.checkpoints[job].before == s.checkpoints[job].before
               && t.checkpoints[job].read == s.checkpoints[job].read
    requires forall i | i in t.tally.settling ::
               i in s.tally.settling && t.tally.settling[i].(swept := false) == s.tally.settling[i].(swept := false)
    ensures Booked(w, t, job)
  {
    assert Untaken(w, t, job) == Untaken(w, s, job);
  }

  lemma NoteStaysBooked(w: World, s: State, x: nat)
    requires Books(w, s) && Done(w, s) && Placed(s.flow) && x in s.flow.unnoted
    ensures Books(w, Flowing(w, s, Note(x)))
  {
    var t := Flowing(w, s, Note(x));
    assert x !in s.flow.counted;
    forall j | j !in Exempt(t) ensures Booked(w, t, j) {
      assert Booked(w, s, j);
      if j == w.Job(x) {
        assert x !in TakenBy(s, j) && Untaken(w, t, j) == Untaken(w, s, j) + {x};
        WeightAdd(w, Untaken(w, s, j), x);
      } else {
        assert Untaken(w, t, j) == Untaken(w, s, j);
      }
    }
  }

  lemma FlowStaysBooked(w: World, s: State, e: FlowEvent)
    requires Books(w, s) && Done(w, s) && Placed(s.flow) && FlowEnabled(s.flow, e)
    ensures Books(w, Flowing(w, s, e))
  {
    if e.Note? {
      NoteStaysBooked(w, s, e.t);
    } else {
      var t := Flowing(w, s, e);
      forall j | j !in Exempt(t) ensures Booked(w, t, j) {
        StillBooked(w, s, t, j);
      }
    }
  }

  lemma ServeReadsNothing(w: World, s: State, opens: bool, keep: bool, job: JobId)
    requires s.reqs != []
    ensures var t := ServeHead(w, s, opens, keep);
            && ReadBy(t, job) == ReadBy(s, job)
            && (job in t.checkpoints <==> job in s.checkpoints)
            && (job in t.checkpoints ==>
                  t.checkpoints[job].before == s.checkpoints[job].before && t.checkpoints[job].read == s.checkpoints[job].read)
  {
  }

  lemma WorkerStaysBooked(w: World, s: State, e: WorkerEvent)
    requires Books(w, s) && WorkerEnabled(w, s, e)
    ensures Books(w, Working(w, s, e))
  {
    var t := Working(w, s, e);
    forall j | j !in Exempt(t) ensures Booked(w, t, j) {
      if e.Serve? {
        ServeReadsNothing(w, s, e.opens, e.keep, j);
      }
      StillBooked(w, s, t, j);
    }
  }

  lemma ReadStaysBooked(w: World, s: State, job: JobId)
    requires Books(w, s) && CheckpointEnabled(s, ReadPending(job))
    ensures Books(w, Checking(w, s, ReadPending(job)))
  {
    var t := Checking(w, s, ReadPending(job));
    forall j | j !in Exempt(t) ensures Booked(w, t, j) {
      assert Booked(w, s, j);
      assert Untaken(w, t, j) == Untaken(w, s, j);
      if j == job {
        assert OfJob(w, t.checkpoints[j].read, j) == Untaken(w, s, j);
      }
    }
  }

  lemma AckStaysBooked(w: World, s: State, job: JobId)
    requires Books(w, s) && CheckpointEnabled(s, AckJob(job))
    ensures Books(w, Checking(w, s, AckJob(job)))
  {
    var t := Checking(w, s, AckJob(job));
    forall j | j !in Exempt(t) ensures Booked(w, t, j) {
      assert Booked(w, s, j);
      assert Untaken(w, t, j) == Untaken(w, s, j);
    }
  }

  /** What a settle leaves untaken, and what it takes off again. */
  lemma SettleSplits(w: World, s: State, c: Settling)
    requires c.read <= s.flow.counted
    ensures var again := OfJob(w, c.read, c.job) * TakenBy(s, c.job);
            var unread := Untaken(w, s, c.job) - c.read;
            && Weight(w, Untaken(w, s, c.job)) - Weight(w, OfJob(w, c.read, c.job)) == Weight(w, unread) - Weight(w, again)
            && (Weight(w, again) == 0 <==> Again(w, s, c) == {}) && (Weight(w, unread) == 0 <==> Unread(w, s, c) == {})
            && Weight(w, again) >= 0 && Weight(w, unread) >= 0
  {
    var U, R, T := Untaken(w, s, c.job), OfJob(w, c.read, c.job), TakenBy(s, c.job);
    WeightSplits(w, U, c.read);
    WeightSplits(w, R, T);
    assert U * c.read == R - T;
    WeighsNothing(w, R * T);
    WeighsNothing(w, U - c.read);
    WeightMono(w, {}, R * T);
    WeightMono(w, {}, U - c.read);
    assert (forall t | t in R * T :: w.len(t) == 0) <==> Again(w, s, c) == {} by {
      assert forall t | t in R * T && w.len(t) > 0 :: t in Again(w, s, c);
      assert forall t | t in Again(w, s, c) :: t in R * T;
    }
    assert (forall t | t in U - c.read :: w.len(t) == 0) <==> Unread(w, s, c) == {} by {
      assert forall t | t in U - c.read && w.len(t) > 0 :: t in Unread(w, s, c);
      assert forall t | t in Unread(w, s, c) :: t in U - c.read;
    }
  }

  /** A settle keeps an exact entry exact, unless it overdraws. */
  lemma SettleIsExactExactly(w: World, s: State, call: nat)
    requires call in s.tally.settling && Exact(w, s, s.tally.settling[call].job)
    requires var c := s.tally.settling[call]; Figure(w, s, c.pending, c.read, c.before, c.job)
    ensures var c := s.tally.settling[call]; Exact(w, Settled(w, s, call), c.job) <==> !Overdraws(w, s, c)
  {
    var c, t := s.tally.settling[call], Settled(w, s, call);
    SettleSplits(w, s, c);
    assert Untaken(w, t, c.job) == Untaken(w, s, c.job) - c.read;
    WeightMono(w, {}, OfJob(w, c.read, c.job));
    WeightMono(w, {}, Untaken(w, s, c.job));
  }

  lemma SettleStaysBooked(w: World, s: State, call: nat)
    requires Books(w, s) && call in s.tally.settling
    ensures Books(w, Settled(w, s, call))
  {
    var c, t := s.tally.settling[call], Settled(w, s, call);
    forall j | j !in Exempt(t) ensures Booked(w, t, j) {
      assert Booked(w, s, j);
      if j == c.job {
        SettleIsExactExactly(w, s, call);
      } else {
        assert Untaken(w, t, j) == Untaken(w, s, j);
      }
    }
  }

  lemma CheckpointStaysBooked(w: World, s: State, e: CheckpointEvent)
    requires Books(w, s) && CheckpointEnabled(s, e)
    ensures Books(w, Checking(w, s, e))
  {
    match e
    case ReadPending(job) => ReadStaysBooked(w, s, job);
    case AckJob(job) => AckStaysBooked(w, s, job);
    case Settle(call) => SettleStaysBooked(w, s, call);
    case _ =>
      forall j | j !in Exempt(Checking(w, s, e)) ensures Booked(w, Checking(w, s, e), j) {
        StillBooked(w, s, Checking(w, s, e), j);
      }
  }

  lemma ReloadStaysBooked(w: World, s: State, e: ReloadEvent)
    requires Books(w, s) && ReloadEnabled(s, e)
    ensures Books(w, Reloading(s, e))
  {
    var t := Reloading(s, e);
    forall j | j !in Exempt(t) ensures Booked(w, t, j) {
      StillBooked(w, s, t, j);
    }
  }

  /** Of what was counted and is still at risk, nothing has been taken off: the entry covers it. */
  lemma EntryCovers(w: World, s: State, job: JobId)
    requires Books(w, s) && Done(w, s) && job !in Exempt(s)
    ensures Weight(w, CountedAtRisk(w, s, job)) <= Pending(s.tally.bytes, job)
  {
    assert Booked(w, s, job);
    WeightMono(w, CountedAtRisk(w, s, job), Untaken(w, s, job));
  }

  // ----- the reload

  ghost predicate NothingOf(w: World, s: State, job: JobId) {
    forall t | t in AtRiskNow(s) :: w.Job(t) != job
  }

  /** Once quiet, nothing more is fetched, sent or left uncounted. */
  ghost predicate Still(s: State) {
    !s.reload.Running? ==> s.flow.stopped && s.flow.arrived == {} && s.flow.handling == {} && s.flow.unnoted == {}
  }

  ghost predicate Swept(s: State) {
    && (forall j | j in s.checkpoints && s.checkpoints[j].swept :: !s.reload.Running? && s.flow.sent <= s.checkpoints[j].before)
    && (forall i | i in s.tally.settling && s.tally.settling[i].swept :: !s.reload.Running? && s.flow.sent <= s.tally.settling[i].before)
  }

  ghost predicate Won(w: World, s: State) {
    (s.won != {} ==> !s.reload.Running?) && forall j | j in s.won && j !in s.retired :: NothingOf(w, s, j)
  }

  /** Whatever is at risk, not empty, belongs to a job still to be judged or already found unsafe. */
  ghost predicate Judged(w: World, s: State) {
    match s.reload
    case AskingJobs(id) => Ahead(s.reqs, ListJobs(id), s.flow.sent)
    case Sweeping(todo, unsafe) =>
      forall t | t in AtRiskNow(s) && w.len(t) > 0 && w.Job(t) !in Exempt(s) :: w.Job(t) in todo + unsafe
    case Cleared(unsafe) =>
      forall t | t in AtRiskNow(s) && w.len(t) > 0 && w.Job(t) !in Exempt(s) :: w.Job(t) in unsafe
    case _ => true
  }

  ghost predicate Sweep(w: World, s: State) {
    Still(s) && Swept(s) && Won(w, s) && Judged(w, s)
  }

  lemma FlowSweeps(w: World, s: State, e: FlowEvent)
    requires Sweep(w, s) && Placed(s.flow) && FlowEnabled(s.flow, e)
    ensures Sweep(w, Flowing(w, s, e))
  {
  }

  lemma ServeSweeps(w: World, s: State, opens: bool, keep: bool)
    requires Sweep(w, s) && Placed(s.flow) && Fifo(s) && AllReached(w, s) && s.reqs != []
    ensures Sweep(w, ServeHead(w, s, opens, keep))
  {
    var t := ServeHead(w, s, opens, keep);
    ServeStaysOrdered(w, s, opens, keep);
    if s.reload.AskingJobs? {
      AheadTail(s.reqs, ListJobs(s.reload.id), s.flow.sent);
    }
    if s.reqs[0].ListJobs? && s.reload == AskingJobs(s.reqs[0].id) {
      QueuedTail(s.reqs);
      assert Queued(t.reqs) == {};
    }
  }

  lemma WorkerSweeps(w: World, s: State, e: WorkerEvent)
    requires Sweep(w, s) && Placed(s.flow) && Fifo(s) && AllReached(w, s) && WorkerEnabled(w, s, e)
    ensures Sweep(w, Working(w, s, e))
  {
    if e.Serve? {
      ServeSweeps(w, s, e.opens, e.keep);
    } else {
      assert AtRiskNow(Working(w, s, e)) <= AtRiskNow(s);
    }
  }

  /** A checkpoint begun after the quiet that finds no file open has a job with nothing at risk. */
  lemma NoFilesWins(w: World, s: State, job: JobId)
    requires Swept(s) && Ordered(s) && AllReached(w, s) && AtRiskNow(s) <= s.flow.sent
    requires job in s.checkpoints && s.checkpoints[job].swept && job !in s.retired
    requires s.checkpoints[job].stage == Answered(false)
    ensures NothingOf(w, s, job)
  {
    assert Reached(w, s, job);
  }

  /** One that succeeds leaves its job nothing at risk, however late it settles. */
  lemma SweptCheckpointWins(w: World, s: State, call: nat)
    requires Swept(s) && Done(w, s) && AtRiskNow(s) <= s.flow.sent
    requires call in s.tally.settling && s.tally.settling[call].swept && s.tally.settling[call].job !in s.retired
    ensures NothingOf(w, s, s.tally.settling[call].job)
  {
    assert NoneLeft(w, s, s.tally.settling[call].before, s.tally.settling[call].job);
  }

  lemma CheckpointSweeps(w: World, s: State, e: CheckpointEvent)
    requires Sweep(w, s) && Placed(s.flow) && Fifo(s) && AllReached(w, s) && Done(w, s) && CheckpointEnabled(s, e)
    ensures Sweep(w, Checking(w, s, e))
  {
    var t := Checking(w, s, e);
    if |t.reqs| > |s.reqs| {
      QueuedAppend(s.reqs, t.reqs[|s.reqs|]);
      if s.reload.AskingJobs? {
        AheadAppend(s.reqs, ListJobs(s.reload.id), s.flow.sent, t.reqs[|s.reqs|]);
      }
    }
    if e.NoFiles? && s.checkpoints[e.job].swept && e.job !in s.retired {
      NoFilesWins(w, s, e.job);
    } else if e.Settle? && s.tally.settling[e.call].swept && s.tally.settling[e.call].job !in s.retired {
      SweptCheckpointWins(w, s, e.call);
    }
    assert AtRiskNow(t) <= AtRiskNow(s);
  }

  /** A job without an entry in the accumulator has nothing but empty articles at risk. */
  lemma NoEntryNoRisk(w: World, s: State, t: nat)
    requires Books(w, s) && Done(w, s) && Placed(s.flow) && AtRiskNow(s) <= s.flow.sent && s.flow.unnoted == {}
    requires t in AtRiskNow(s) && w.len(t) > 0 && w.Job(t) !in Exempt(s)
    ensures Pending(s.tally.bytes, w.Job(t)) > 0
  {
    EntryCovers(w, s, w.Job(t));
    assert t in CountedAtRisk(w, s, w.Job(t));
    WeightOfOne(w, CountedAtRisk(w, s, w.Job(t)), t);
  }

  lemma EmptySets(f: Flow)
    requires InFlightCounted(f) && f.inFlight == 0
    ensures f.handling == {} && f.unnoted == {} && f.finishing == {}
  {
  }

  lemma ReloadSweeps(w: World, s: State, e: ReloadEvent)
    requires Sweep(w, s) && Placed(s.flow) && InFlightCounted(s.flow) && Fifo(s) && Books(w, s) && Done(w, s) && ReloadEnabled(s, e)
    ensures Sweep(w, Reloading(s, e))
  {
    var t := Reloading(s, e);
    match e
    case Quiesce => EmptySets(s.flow);
    case AskJobs =>
      QueuedAppend(s.reqs, ListJobs(s.minted));
      NewListingIsBehind(s, s.flow.sent);
    case JobsUnknown =>
      forall x | x in AtRiskNow(t) && w.len(x) > 0 && w.Job(x) !in Exempt(t) ensures w.Job(x) in JobsAtRisk(s.tally.bytes) {
        NoEntryNoRisk(w, s, x);
      }
    case JudgeSafe(job) =>
      forall x | x in AtRiskNow(t) && w.len(x) > 0 && w.Job(x) !in Exempt(t) ensures w.Job(x) != job {
        if w.Job(x) == job {
          NoEntryNoRisk(w, s, x);
        }
      }
    case _ =>
  }

  // ----- every history

  ghost predicate Sound(w: World, s: State) {
    && Placed(s.flow) && InFlightCounted(s.flow)
    && Fifo(s) && AllReached(w, s) && Done(w, s) && Books(w, s) && Sweep(w, s)
  }

  lemma FlowKeepsSound(w: World, s: State, f: FlowEvent)
    requires Sound(w, s) && FlowEnabled(s.flow, f)
    ensures Sound(w, Flowing(w, s, f))
  {
    FlowStaysPlaced(w, s, f);
    FlowStaysFifo(w, s, f);
    FlowReaches(w, s, f);
    FlowStaysDone(w, s, f);
    FlowStaysBooked(w, s, f);
    FlowSweeps(w, s, f);
  }

  lemma WorkerKeepsSound(w: World, s: State, x: WorkerEvent)
    requires Sound(w, s) && WorkerEnabled(w, s, x)
    ensures Sound(w, Working(w, s, x))
  {
    WorkerStaysFifo(w, s, x);
    WorkerReaches(w, s, x);
    WorkerStaysDone(w, s, x);
    WorkerStaysBooked(w, s, x);
    WorkerSweeps(w, s, x);
    assert Working(w, s, x).flow == s.flow;
  }

  lemma CheckpointKeepsSound(w: World, s: State, c: CheckpointEvent)
    requires Sound(w, s) && CheckpointEnabled(s, c)
    ensures Sound(w, Checking(w, s, c))
  {
    CheckpointStaysFifo(w, s, c);
    CheckpointReaches(w, s, c);
    CheckpointStaysDone(w, s, c);
    CheckpointStaysBooked(w, s, c);
    CheckpointSweeps(w, s, c);
  }

  lemma ReloadKeepsSound(w: World, s: State, r: ReloadEvent)
    requires Sound(w, s) && ReloadEnabled(s, r)
    ensures Sound(w, Reloading(s, r))
  {
    ReloadStaysFifo(s, r);
    ReloadReaches(w, s, r);
    ReloadStaysDone(w, s, r);
    ReloadStaysBooked(w, s, r);
    ReloadSweeps(w, s, r);
  }

  lemma EventKeepsSound(w: World, s: State, e: Event)
    requires Sound(w, s) && Enabled(w, s, e)
    ensures Sound(w, Happen(w, s, e))
  {
    match e
    case OfFlow(f) => FlowKeepsSound(w, s, f);
    case OfWorker(x) => WorkerKeepsSound(w, s, x);
    case OfCheckpoint(c) => CheckpointKeepsSound(w, s, c);
    case OfReload(r) => ReloadKeepsSound(w, s, r);
  }

  lemma {:induction false} HistoryIsSound(w: World, events: seq<Event>)
    ensures Sound(w, History(w, events))
    decreases |events|
  {
    if events == [] {
      forall j ensures Booked(w, Initially, j) {
        assert Untaken(w, Initially, j) == {};
        Weightless(w);
      }
    } else {
      var s := History(w, events[..|events| - 1]);
      HistoryIsSound(w, events[..|events| - 1]);
      if Enabled(w, s, events[|events| - 1]) {
        EventKeepsSound(w, s, events[|events| - 1]);
      }
    }
  }

  /**
   * The entry of a job that no settle has overdrawn is never less than the bytes counted for it that are
   * queued, buffered, or written and not acked in an open file, through writes arriving during a barrier,
   * barriers that fail, settles that come late, and any number of reloads; and no entry is zero or negative.
   */
  lemma AccumulatorCovers(w: World, events: seq<Event>, job: JobId)
    ensures var s := History(w, events);
            && (forall j | j in s.tally.bytes :: s.tally.bytes[j] > 0)
            && (job !in s.retired + s.tally.overdrawn ==> Weight(w, CountedAtRisk(w, s, job)) <= Pending(s.tally.bytes, job))
  {
    HistoryIsSound(w, events);
    if job !in Exempt(History(w, events)) {
      EntryCovers(w, History(w, events), job);
    }
  }

  /** At every moment the job's entry has been what was counted for it and not taken off. */
  ghost predicate ExactThroughout(w: World, events: seq<Event>, job: JobId)
    decreases |events|
  {
    Exact(w, History(w, events), job) && (events == [] || ExactThroughout(w, events[..|events| - 1], job))
  }

  function OverdrawnBy(w: World, s: State, e: Event): set<JobId>
    requires Enabled(w, s, e)
  {
    if e.OfCheckpoint? && e.c.Settle? && Overdraws(w, s, s.tally.settling[e.c.call]) then {s.tally.settling[e.c.call].job} else {}
  }

  lemma OnlySettlesOverdraw(w: World, s: State, e: Event)
    requires Enabled(w, s, e)
    ensures Happen(w, s, e).tally.overdrawn == s.tally.overdrawn + OverdrawnBy(w, s, e)
    ensures s.retired <= Happen(w, s, e).retired
  {
  }

  lemma OverdrawingIsInexact(w: World, s: State, call: nat)
    requires Books(w, s) && call in s.tally.settling && s.tally.settling[call].job !in Exempt(s)
    requires Overdraws(w, s, s.tally.settling[call])
    ensures !Exact(w, Settled(w, s, call), s.tally.settling[call].job)
  {
    assert Booked(w, s, s.tally.settling[call].job);
    SettleIsExactExactly(w, s, call);
  }

  lemma SoundIsExact(w: World, s: State, job: JobId)
    requires Sound(w, s) && job !in Exempt(s)
    ensures Exact(w, s, job)
  {
    assert Booked(w, s, job);
  }

  /** One more event keeps a job's exact entry exact, unless it overdraws it. */
  lemma EventIsExactExactly(w: World, s: State, e: Event, job: JobId)
    requires Sound(w, s) && Enabled(w, s, e) && job !in Exempt(s) && job !in Happen(w, s, e).retired
    ensures Exact(w, Happen(w, s, e), job) <==> job !in Happen(w, s, e).tally.overdrawn
  {
    OnlySettlesOverdraw(w, s, e);
    if job in OverdrawnBy(w, s, e) {
      OverdrawingIsInexact(w, s, e.c.call);
    } else {
      EventKeepsSound(w, s, e);
      SoundIsExact(w, Happen(w, s, e), job);
    }
  }

  /** An entry is exact at every moment if and only if no settle has overdrawn it. */
  lemma {:induction false} EntryIsExactExactly(w: World, events: seq<Event>, job: JobId)
    requires job !in History(w, events).retired
    ensures ExactThroughout(w, events, job) <==> job !in History(w, events).tally.overdrawn
    decreases |events|
  {
    HistoryIsSound(w, events);
    if events == [] {
      SoundIsExact(w, Initially, job);
    } else {
      var most, e := events[..|events| - 1], events[|events| - 1];
      var s := History(w, most);
      if Enabled(w, s, e) {
        OnlySettlesOverdraw(w, s, e);
        HistoryIsSound(w, most);
        EntryIsExactExactly(w, most, job);
        if job !in s.tally.overdrawn {
          EventIsExactExactly(w, s, e, job);
        }
      } else {
        EntryIsExactExactly(w, most, job);
        assert ExactThroughout(w, most, job) ==> Exact(w, s, job);
      }
    }
  }

  /** A job's checkpoints run one after the other to the end: none begins before the last has settled. */
  ghost predicate InTurn(w: World, events: seq<Event>)
    decreases |events|
  {
    events == [] ||
    var most, e := events[..|events| - 1], events[|events| - 1];
    && InTurn(w, most)
    && (e.OfCheckpoint? && e.c.Begin? ==>
          forall i | i in History(w, most).tally.settling :: History(w, most).tally.settling[i].job != e.c.job)
  }

  /** At most one figure of a job is read and not settled, and nothing it stands for has been taken off. */
  ghost predicate OneFigure(s: State) {
    && (forall i | i in s.tally.settling :: s.tally.settling[i].job !in s.checkpoints && s.tally.settling[i].read !! TakenBy(s, s.tally.settling[i].job))
    && (forall i, k | i in s.tally.settling && k in s.tally.settling && i != k :: s.tally.settling[i].job != s.tally.settling[k].job)
    && (forall j | j in s.checkpoints && ReadBy(s, j).Some? :: s.checkpoints[j].read !! TakenBy(s, j))
  }

  /** Nothing newly read or taken off: the figures are what they were. */
  lemma StillOneFigure(s: State, t: State)
    requires OneFigure(s) && t.tally.taken == s.tally.taken && t.checkpoints.Keys <= s.checkpoints.Keys
    requires forall i | i in t.tally.settling ::
               i in s.tally.settling && t.tally.settling[i].(swept := false) == s.tally.settling[i].(swept := false)
    requires forall j | j in t.checkpoints && ReadBy(t, j).Some? ::
               ReadBy(s, j).Some? && t.checkpoints[j].read == s.checkpoints[j].read
    ensures OneFigure(t)
  {
  }

  lemma CheckpointKeepsOneFigure(w: World, s: State, e: CheckpointEvent)
    requires OneFigure(s) && CheckpointEnabled(s, e)
    requires e.Begin? ==> forall i | i in s.tally.settling :: s.tally.settling[i].job != e.job
    ensures OneFigure(Checking(w, s, e)) && Checking(w, s, e).tally.overdrawn == s.tally.overdrawn
  {
  }

  lemma TurnKeepsOneFigure(w: World, s: State, e: Event)
    requires OneFigure(s) && Enabled(w, s, e)
    requires e.OfCheckpoint? && e.c.Begin? ==> forall i | i in s.tally.settling :: s.tally.settling[i].job != e.c.job
    ensures OneFigure(Happen(w, s, e)) && Happen(w, s, e).tally.overdrawn == s.tally.overdrawn
  {
    if e.OfCheckpoint? {
      CheckpointKeepsOneFigure(w, s, e.c);
    } else {
      var t := Happen(w, s, e);
      forall j | j in t.checkpoints && ReadBy(t, j).Some?
        ensures ReadBy(s, j).Some? && t.checkpoints[j].read == s.checkpoints[j].read
      {
        if e.OfWorker? && e.w.Serve? {
          ServeReadsNothing(w, s, e.w.opens, e.w.keep, j);
        }
      }
      StillOneFigure(s, t);
    }
  }

  lemma {:induction false} TurnsKeepOneFigure(w: World, events: seq<Event>)
    requires InTurn(w, events)
    ensures OneFigure(History(w, events)) && History(w, events).tally.overdrawn == {}
    decreases |events|
  {
    if events != [] {
      var most, e := events[..|events| - 1], events[|events| - 1];
      TurnsKeepOneFigure(w, most);
      if Enabled(w, History(w, most), e) {
        TurnKeepsOneFigure(w, History(w, most), e);
      }
    }
  }

  /** So with checkpoints in turn, as the checkpoint loop runs them, the entry covers outright. */
  lemma AccumulatorCoversInTurn(w: World, events: seq<Event>, job: JobId)
    requires InTurn(w, events)
    ensures var s := History(w, events);
            && s.tally.overdrawn == {}
            && (job !in s.retired ==> Weight(w, CountedAtRisk(w, s, job)) <= Pending(s.tally.bytes, job))
  {
    TurnsKeepOneFigure(w, events);
    AccumulatorCovers(w, events, job);
  }

  /** Deliveries on their way to the assembler, queued, buffered, or written and not acked in an open file. */
  function UnderWay(s: State): set<nat> {
    s.flow.arrived + s.flow.handling + s.flow.unnoted + AtRiskNow(s)
  }

  function Unacked(s: State): set<nat> {
    UnderWay(s) + s.stranded
  }

  lemma NothingUnderWay(w: World, s: State, t: nat)
    requires Sound(w, s) && s.reload.Cleared?
    requires w.Job(t) !in s.reload.unsafe && w.Job(t) !in s.retired + s.tally.overdrawn && w.len(t) > 0
    ensures t !in UnderWay(s)
  {
  }

  /**
   * Whenever a reload, the first or any later one, clears the Emitted bits: an article with bytes, of a job
   * cleared and still downloading, is nowhere between its fetch and its ack. It is unacked only if its file
   * was closed over it.
   */
  lemma ReloadIsSafe(w: World, events: seq<Event>, t: nat)
    requires History(w, events).reload.Cleared?
    requires var s := History(w, events);
             w.Job(t) !in s.reload.unsafe && w.Job(t) !in s.retired + s.tally.overdrawn && w.len(t) > 0
    ensures t !in UnderWay(History(w, events))
  {
    HistoryIsSound(w, events);
    NothingUnderWay(w, History(w, events), t);
  }

  /** No file was closed while it held articles not yet acked. */
  ghost predicate ClosesWait(w: World, events: seq<Event>)
    decreases |events|
  {
    events == [] ||
    var most, e := events[..|events| - 1], events[|events| - 1];
    && ClosesWait(w, most)
    && (e.OfWorker? && e.w.CloseFile? ==> forall t | t in History(w, most).held :: w.file(t) != e.w.key)
  }

  /** Articles are stranded exactly by closes that do not wait. */
  lemma {:induction false} ClosesThatWaitStrandNothing(w: World, events: seq<Event>)
    ensures ClosesWait(w, events) <==> History(w, events).stranded == {}
    decreases |events|
  {
    if events != [] {
      var most, e := events[..|events| - 1], events[|events| - 1];
      var s := History(w, most);
      ClosesThatWaitStrandNothing(w, most);
      if e.OfWorker? && e.w.CloseFile? {
        var lost := set t | t in s.held && w.file(t) == e.w.key;
        assert History(w, events).stranded == s.stranded + lost;
        if t :| t in s.held && w.file(t) == e.w.key {
          assert t in lost;
        } else {
          assert lost == {};
        }
      }
    }
  }

  /** So with closes that wait for the ack, a reload is safe outright. */
  lemma ReloadIsSafeWhenClosesWait(w: World, events: seq<Event>, t: nat)
    requires History(w, events).reload.Cleared? && ClosesWait(w, events)
    requires var s := History(w, events);
             w.Job(t) !in s.reload.unsafe && w.Job(t) !in s.retired + s.tally.overdrawn && w.len(t) > 0
    ensures t !in Unacked(History(w, events))
  {
    ReloadIsSafe(w, events, t);
    ClosesThatWaitStrandNothing(w, events);
  }
}
