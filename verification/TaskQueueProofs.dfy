/**
 The invariant of the task queue and what it gives over whole runs: the worker runs tasks in the order of the tail
 exchanges, each once; no node is touched after it was deleted and every node is deleted exactly once; pending is the
 number of counted tasks not finished; sync waits for what it promises; the exception latch hands out the first
 exception since the previous clear.
 */
module TaskQueueProofs {
  import opened Options
  import opened TaskQueueModel

  // ----- the exception latch against its history

  /** The held exception, recomputed from the history: the first recorded since the last clear. */
  function Latched(events: seq<Event>): (held: Option<nat>)
    ensures held.Some? ==> held.value < |events| && events[held.value].Recorded?
  {
    if events == [] then None
    else
      var n := |events| - 1;
      match events[n]
      case Recorded(_) => if Latched(events[..n]).None? then Some(n) else Latched(events[..n])
      case Taken(_, _) => None
  }

  /** Event j is the first exception recorded since the previous clear. */
  ghost predicate FirstSinceClear(events: seq<Event>, j: nat) {
    && j < |events| && events[j].Recorded?
    && (forall q | j < q < |events| :: !events[q].Taken?)
    && (forall q | 0 <= q < j && events[q].Recorded? :: exists t :: q < t < j && events[t].Taken?)
  }

  lemma {:induction false} LatchedIsFirst(events: seq<Event>)
    ensures Latched(events).Some? ==> FirstSinceClear(events, Latched(events).value)
    ensures Latched(events).None? ==>
      forall q | 0 <= q < |events| && events[q].Recorded? :: exists t :: q < t < |events| && events[t].Taken?
  {
    if events != [] {
      var n := |events| - 1;
      var before := events[..n];
      LatchedIsFirst(before);
      if events[n].Taken? {
        forall q | 0 <= q < |events| && events[q].Recorded?
          ensures exists t :: q < t < |events| && events[t].Taken?
        {
          assert q < n && events[n].Taken?;
        }
      } else if Latched(before).None? {
        forall q | 0 <= q < n && events[q].Recorded? ensures exists t :: q < t < n && events[t].Taken? {
          assert before[q].Recorded?;
          var t :| q < t < n && before[t].Taken?;
          assert events[t].Taken?;
        }
      } else {
        var j := Latched(before).value;
        forall q | 0 <= q < j && events[q].Recorded? ensures exists t :: q < t < j && events[t].Taken? {
          assert before[q].Recorded?;
          var t :| q < t < j && before[t].Taken?;
          assert events[t].Taken?;
        }
      }
    }
  }

  ghost predicate EventsOk(s: State) {
    && s.exception == Latched(s.events)
    && (forall i | 0 <= i < |s.events| && s.events[i].Taken? :: s.events[i].exception == Latched(s.events[..i]))
    && (forall i | 0 <= i < |s.events| && s.events[i].Taken? ::
      s.events[i].caller < |s.syncs| && !s.syncs[s.events[i].caller].nothrow)
  }

  // ----- nodes

  /** How many enqueue calls have counted their task and not yet published their node. */
  function Unpublished(stage: seq<Stage>): nat {
    if stage == [] then 0
    else Unpublished(stage[..|stage| - 1]) + (if stage[|stage| - 1].Exchanging? then 1 else 0)
  }

  lemma {:induction false} UnpublishedUpdate(stage: seq<Stage>, v: nat, x: Stage)
    requires v < |stage|
    ensures Unpublished(stage[v := x])
            == Unpublished(stage) - (if stage[v].Exchanging? then 1 else 0) + (if x.Exchanging? then 1 else 0)
  {
    var n := |stage| - 1;
    if v == n {
      assert stage[v := x][..n] == stage[..n];
    } else {
      UnpublishedUpdate(stage[..n], v, x);
      assert stage[v := x][..n] == stage[..n][v := x];
    }
  }

  lemma UnpublishedAppend(stage: seq<Stage>, x: Stage)
    ensures Unpublished(stage + [x]) == Unpublished(stage) + (if x.Exchanging? then 1 else 0)
  {
    assert (stage + [x])[..|stage|] == stage;
  }

  predicate Published(x: Stage) {
    x.Linking? || x.Linked?
  }

  /** The i-th published node is linked from the one before it, or its enqueue call still holds that one as prev. */
  ghost predicate LinkAt(stage: seq<Stage>, order: seq<nat>, next: map<nat, nat>, i: nat)
    requires 0 < i < |order| && order[i] < |stage|
  {
    if stage[order[i]].Linked? then order[i - 1] in next && next[order[i - 1]] == order[i]
    else stage[order[i]] == Linking(order[i - 1]) && order[i - 1] !in next
  }

  /** The published nodes, in tail-exchange order, and their links. */
  ghost predicate Linkage(stage: seq<Stage>, order: seq<nat>, next: map<nat, nat>, tail: nat) {
    && |order| > 0 && order[0] == 0
    && (forall i | 0 <= i < |order| :: order[i] < |stage| && Published(stage[order[i]]))
    && (forall i, j | 0 <= i < j < |order| :: order[i] != order[j])
    && tail == order[|order| - 1] && tail !in next
    && stage[0].Linked?
    && (forall i | 0 < i < |order| :: LinkAt(stage, order, next, i))
  }

  /** No published node and no link is missing from the order. */
  ghost predicate Covered(stage: seq<Stage>, order: seq<nat>, next: map<nat, nat>) {
    && (forall v | 0 <= v < |stage| && Published(stage[v]) :: v in order)
    && (forall v | v in next :: v in order)
  }

  ghost predicate Accounting(s: State) {
    && s.pending == s.counted - s.finished
    && s.counted == |s.order| - 1 + Unpublished(s.stage)
    && s.finished <= s.at
  }

  /** The callable nodes among the first k published after the dummy, in order. */
  function Callables(order: seq<nat>, callable: seq<bool>, k: nat): seq<nat> {
    if k == 0 || k >= |order| then []
    else
      Callables(order, callable, k - 1) + (if order[k] < |callable| && callable[order[k]] then [order[k]] else [])
  }

  /** The tasks run are the callable ones up to the k-th published node. */
  ghost predicate RanUpTo(order: seq<nat>, callable: seq<bool>, ran: seq<nat>, k: nat) {
    k < |order| && ran == Callables(order, callable, k)
  }

  /** Index of the last node whose task has been run (or skipped). */
  function RanIndex(s: State): nat {
    if s.worker.WDelete? then s.at + 1 else s.at
  }

  /** The nodes the worker has reached are linked. */
  ghost predicate Reached(stage: seq<Stage>, order: seq<nat>, k: nat) {
    k < |order| && forall i | 0 <= i <= k :: order[i] < |stage| && stage[order[i]].Linked?
  }

  function Current(w: Worker): nat {
    if w.WStart? then 0 else w.curr
  }

  /** Between deleting the node it passed and subtracting from pending. */
  predicate Finishing(w: Worker) {
    w.WStoreHead? || w.WLock? || w.WCritical?
  }

  predicate WorkerInside(w: Worker) {
    w.WCritical? || w.WSleepNext? || w.WSleepDone?
  }

  ghost predicate WorkerOk(s: State) {
    && Reached(s.stage, s.order, s.at)
    && (s.mutex == Some(WorkerHolds) <==> WorkerInside(s.worker))
    && Current(s.worker) == s.order[s.at]
    && s.at == s.finished + (if Finishing(s.worker) then 1 else 0)
    && (!s.worker.WStoreHead? ==> s.head == s.order[s.at])
    && (s.worker.WRun? || s.worker.WDelete? ==>
      Reached(s.stage, s.order, s.at + 1) && s.worker.next == s.order[s.at + 1])
    && (s.worker.WExited? ==> s.done)
  }

  /** The worker frees the nodes it passed, the destructor the rest. */
  ghost predicate Reclaimed(s: State) {
    && s.at < |s.order|
    && (!s.destroyer.DIdle? ==> NoneInFlight(s))
    && (s.done <==> s.destroyer.DJoin? || s.destroyer.DWalk? || s.destroyer.DFinished?)
    && (s.mutex == Some(DestroyerHolds) <==> s.destroyer.DSet?)
    && (s.destroyer.DWalk? || s.destroyer.DFinished? ==> s.worker.WExited?)
    && match s.destroyer
       case DWalk(Some(node)) =>
         && s.at <= |s.freed| < |s.order| && s.freed == s.order[..|s.freed|] && node == s.order[|s.freed|]
       case DWalk(None) => s.freed == s.order
       case DFinished => s.freed == s.order
       case _ => s.freed == s.order[..s.at]
  }

  // ----- callers of sync

  ghost predicate SyncOk(s: State, i: nat)
    requires i < |s.syncs|
  {
    var y := s.syncs[i];
    && (s.mutex == Some(SyncHolds(i)) <==>
      y.pc.SPending? || y.pc.SDone? || y.pc.SException? || y.pc.SExceptionPending? || y.pc.SExceptionDone?
      || y.pc.STake? || y.pc.SPeek?)
    && (y.sawDone ==> s.done)
    && (y.zero ==> y.low)
    && match y.pc
       case SLock(second) => second ==> y.low || y.sawDone
       case SPending(second) => second ==> y.low || y.sawDone
       case SDone(second) => second ==> y.low || y.sawDone
       case SException => !y.nothrow && (y.low || y.sawDone)
       case SExceptionPending => !y.nothrow && (y.low || y.sawDone)
       case SExceptionDone => !y.nothrow && (y.low || y.sawDone)
       case STake => !y.nothrow && (y.low || y.sawDone) && (s.exception.Some? ==> y.zero || y.sawDone)
       case SPeekLock => y.nothrow && (y.low || y.sawDone)
       case SPeek => y.nothrow && (y.low || y.sawDone)
       case SReturned(thrown) =>
         && (y.low || y.sawDone) && (thrown.Some? ==> !y.nothrow && (y.zero || y.sawDone))
         && (y.nothrow && y.allow > 0 ==> y.clear || y.zero || y.sawDone)
  }

  ghost predicate RecorderOk(s: State, i: nat)
    requires i < |s.recorders|
  {
    s.mutex == Some(RecorderHolds(i)) <==> s.recorders[i].RHolds?
  }

  ghost predicate HolderExists(s: State) {
    match s.mutex
    case Some(SyncHolds(i)) => i < |s.syncs|
    case Some(RecorderHolds(i)) => i < |s.recorders|
    case _ => true
  }

  ghost predicate Callers(s: State) {
    && HolderExists(s)
    && (forall i | 0 <= i < |s.syncs| :: SyncOk(s, i))
    && (forall i | 0 <= i < |s.recorders| :: RecorderOk(s, i))
  }

  ghost predicate Nodes(s: State) {
    && |s.callable| == |s.stage|
    && Linkage(s.stage, s.order, s.next, s.tail) && Covered(s.stage, s.order, s.next)
  }

  /** The failed task whose exception the worker is about to record. */
  function Carried(w: Worker): Option<nat> {
    match w
    case WDelete(_, next, true) => Some(next)
    case WStoreHead(curr, true) => Some(curr)
    case WLock(curr, true) => Some(curr)
    case WCritical(curr, true) => Some(curr)
    case _ => None
  }

  ghost predicate Offered(events: seq<Event>, v: nat) {
    exists k :: 0 <= k < |events| && events[k] == Recorded(TaskFailed(v))
  }

  ghost predicate EventOk(failures: seq<nat>, e: Event) {
    e.Recorded? && e.source.TaskFailed? ==> e.source.node in failures
  }

  /** The exceptions offered by the worker are those of the failed tasks, but for one it may still carry. */
  ghost predicate FailuresOk(failures: seq<nat>, worker: Worker, events: seq<Event>) {
    && (forall i | 0 <= i < |failures| :: Offered(events, failures[i]) || Carried(worker) == Some(failures[i]))
    && (forall k | 0 <= k < |events| :: EventOk(failures, events[k]))
    && (Carried(worker).Some? ==> Carried(worker).value in failures)
  }

  ghost predicate Inv(s: State) {
    && Nodes(s) && Accounting(s) && WorkerOk(s) && RanUpTo(s.order, s.callable, s.ran, RanIndex(s))
    && Reclaimed(s) && EventsOk(s) && Callers(s) && FailuresOk(s.failures, s.worker, s.events)
  }

  lemma InitialInv()
    ensures Inv(INITIAL)
  {
    assert INITIAL.stage[..0] == [];
  }

  // ----- enqueue

  /** Later nodes and tasks leave the tasks of the first k alone. */
  lemma {:induction false} CallablesFrame(order: seq<nat>, later: seq<nat>, callable: seq<bool>, more: seq<bool>,
                                          k: nat)
    requires k < |order| && order <= later
    requires forall i | 0 <= i < |order| :: order[i] < |callable|
    ensures Callables(later, callable + more, k) == Callables(order, callable, k)
  {
    if k > 0 {
      CallablesFrame(order, later, callable, more, k - 1);
    }
  }

  lemma CallersSame(s: State, t: State)
    requires t.syncs == s.syncs && t.recorders == s.recorders && t.done == s.done && t.mutex == s.mutex
    requires t.exception == s.exception
    requires Callers(s)
    ensures Callers(t)
  {
    forall i | 0 <= i < |t.syncs| ensures SyncOk(t, i) {
      assert SyncOk(s, i);
    }
    forall i | 0 <= i < |t.recorders| ensures RecorderOk(t, i) {
      assert RecorderOk(s, i);
    }
  }

  lemma NewEnqueueNodes(s: State, hasTask: bool)
    requires Nodes(s)
    ensures Nodes(s.(stage := s.stage + [Counting], callable := s.callable + [hasTask]))
  {
    var t := s.(stage := s.stage + [Counting], callable := s.callable + [hasTask]);
    forall i | 0 < i < |t.order| ensures LinkAt(t.stage, t.order, t.next, i) {
      assert LinkAt(s.stage, s.order, s.next, i);
    }
  }

  lemma NewEnqueueWorker(s: State, hasTask: bool)
    requires WorkerOk(s) && Reclaimed(s) && Accounting(s) && s.destroyer.DIdle?
    ensures var t := s.(stage := s.stage + [Counting], callable := s.callable + [hasTask]);
      WorkerOk(t) && Reclaimed(t) && Accounting(t)
  {
    UnpublishedAppend(s.stage, Counting);
  }

  lemma NewEnqueueRan(s: State, hasTask: bool)
    requires Linkage(s.stage, s.order, s.next, s.tail) && |s.callable| == |s.stage|
    requires RanUpTo(s.order, s.callable, s.ran, RanIndex(s))
    ensures RanUpTo(s.order, s.callable + [hasTask], s.ran, RanIndex(s))
  {
    CallablesFrame(s.order, s.order, s.callable, [hasTask], RanIndex(s));
  }

  lemma NewEnqueueKeeps(s: State, hasTask: bool)
    requires Inv(s) && Enabled(s, NewEnqueue(hasTask))
    ensures Inv(Apply(s, NewEnqueue(hasTask)))
  {
    NewEnqueueNodes(s, hasTask);
    NewEnqueueWorker(s, hasTask);
    NewEnqueueRan(s, hasTask);
    CallersSame(s, Apply(s, NewEnqueue(hasTask)));
  }

  lemma CountNodes(s: State, v: nat)
    requires Nodes(s) && v < |s.stage| && s.stage[v].Counting?
    ensures Nodes(EnqueueAct(s, v))
  {
    var t := EnqueueAct(s, v);
    forall i | 0 < i < |t.order| ensures LinkAt(t.stage, t.order, t.next, i) {
      assert LinkAt(s.stage, s.order, s.next, i);
    }
  }

  lemma ExchangeNodes(s: State, v: nat)
    requires Nodes(s) && v < |s.stage| && s.stage[v].Exchanging?
    ensures Nodes(EnqueueAct(s, v))
  {
    var t := EnqueueAct(s, v);
    assert v !in s.order;
    assert t.order[|s.order|] == v;
    forall i | 0 < i < |t.order| ensures LinkAt(t.stage, t.order, t.next, i) {
      if i < |s.order| {
        assert LinkAt(s.stage, s.order, s.next, i);
      }
    }
  }

  lemma LinkNodes(s: State, v: nat)
    requires Nodes(s) && v < |s.stage| && s.stage[v].Linking?
    ensures Nodes(EnqueueAct(s, v))
  {
    var t := EnqueueAct(s, v);
    assert Published(s.stage[v]);
    var j :| 0 <= j < |s.order| && s.order[j] == v;
    assert LinkAt(s.stage, s.order, s.next, j);
    forall i | 0 < i < |t.order| ensures LinkAt(t.stage, t.order, t.next, i) {
      assert LinkAt(s.stage, s.order, s.next, i);
      if i != j {
        assert s.order[i] != s.order[j] && s.order[i - 1] != s.order[j - 1];
      }
    }
  }

  lemma EnqueueAccounting(s: State, v: nat)
    requires Accounting(s) && v < |s.stage| && !s.stage[v].Linked?
    ensures Accounting(EnqueueAct(s, v))
  {
    UnpublishedUpdate(s.stage, v, EnqueueAct(s, v).stage[v]);
  }

  lemma EnqueueWorker(s: State, v: nat)
    requires WorkerOk(s) && v < |s.stage| && !s.stage[v].Linked?
    ensures WorkerOk(EnqueueAct(s, v))
  {
  }

  lemma EnqueueReclaimed(s: State, v: nat)
    requires Reclaimed(s) && v < |s.stage| && !s.stage[v].Linked?
    ensures Reclaimed(EnqueueAct(s, v))
  {
    assert EnqueueAct(s, v).order[..s.at] == s.order[..s.at];
  }

  lemma EnqueueRan(s: State, v: nat)
    requires RanUpTo(s.order, s.callable, s.ran, RanIndex(s)) && v < |s.stage| == |s.callable|
    requires forall i | 0 <= i < |s.order| :: s.order[i] < |s.callable|
    ensures var t := EnqueueAct(s, v); RanUpTo(t.order, t.callable, t.ran, RanIndex(t))
  {
    CallablesFrame(s.order, EnqueueAct(s, v).order, s.callable, [], RanIndex(s));
    assert s.callable + [] == s.callable;
  }

  lemma EnqueueKeeps(s: State, v: nat)
    requires Inv(s) && Enabled(s, EnqueueStep(v)) && !s.stage[v].Linked?
    ensures Inv(Apply(s, EnqueueStep(v)))
  {
    assert Nodes(EnqueueAct(s, v)) by {
      if s.stage[v].Counting? {
        CountNodes(s, v);
      } else if s.stage[v].Exchanging? {
        ExchangeNodes(s, v);
      } else {
        LinkNodes(s, v);
      }
    }
    EnqueueAccounting(s, v);
    EnqueueWorker(s, v);
    EnqueueReclaimed(s, v);
    EnqueueRan(s, v);
    CallersSame(s, EnqueueAct(s, v));
  }

  // ----- the worker

  predicate Foreign(mutex: Option<Holder>) {
    match mutex
    case Some(SyncHolds(_)) => false
    case Some(RecorderHolds(_)) => false
    case _ => true
  }

  /** A step of the worker or the destructor that leaves the callers' own locks alone. */
  lemma CallersUnmoved(s: State, t: State)
    requires t.syncs == s.syncs && t.recorders == s.recorders && (s.done ==> t.done)
    requires Callers(s)
    requires t.mutex == s.mutex || (Foreign(s.mutex) && Foreign(t.mutex))
    requires t.exception == s.exception || s.mutex == Some(WorkerHolds)
    ensures Callers(t)
  {
    forall i | 0 <= i < |t.syncs| ensures SyncOk(t, i) {
      assert SyncOk(s, i);
    }
    forall i | 0 <= i < |t.recorders| ensures RecorderOk(t, i) {
      assert RecorderOk(s, i);
    }
  }

  lemma OfferEvents(s: State, source: Source)
    requires EventsOk(s)
    ensures EventsOk(Offer(s, source))
  {
    var t := Offer(s, source);
    assert t.events[..|s.events|] == s.events;
    forall i | 0 <= i < |t.events| && t.events[i].Taken? ensures t.events[i].exception == Latched(t.events[..i]) {
      assert t.events[..i] == s.events[..i];
    }
  }

  /** A link the worker finds leads to the next published node, whose enqueue call has returned from linking. */
  lemma LinkFound(s: State)
    requires Nodes(s) && Reached(s.stage, s.order, s.at) && s.order[s.at] in s.next
    ensures Reached(s.stage, s.order, s.at + 1) && s.next[s.order[s.at]] == s.order[s.at + 1]
  {
    if s.at + 1 < |s.order| {
      assert LinkAt(s.stage, s.order, s.next, s.at + 1);
    }
  }

  lemma WorkerRuns(s: State, fails: bool)
    requires WorkerOk(s) && s.worker.WRun? && s.worker.next < |s.callable|
    ensures WorkerOk(WorkerAct(s, fails)) && (Reclaimed(s) ==> Reclaimed(WorkerAct(s, fails)))
  {
  }

  lemma WorkerRunsNext(s: State, fails: bool)
    requires WorkerOk(s) && (s.worker.WRun? || s.worker.WDelete?) && |s.callable| == |s.stage|
    requires RanUpTo(s.order, s.callable, s.ran, RanIndex(s))
    ensures var t := WorkerAct(s, fails); RanUpTo(t.order, t.callable, t.ran, RanIndex(t))
  {
  }

  lemma WorkerDeletes(s: State, fails: bool)
    requires WorkerOk(s) && Reclaimed(s) && s.worker.WDelete?
    ensures var t := WorkerAct(s, fails);
      WorkerOk(t) && Reclaimed(t)
  {
    assert s.order[..s.at + 1] == s.order[..s.at] + [s.order[s.at]];
  }

  lemma WorkerLoads(s: State, fails: bool)
    requires Nodes(s) && WorkerOk(s) && s.worker.WLoad?
    ensures WorkerOk(WorkerAct(s, fails))
  {
    if s.worker.curr in s.next {
      LinkFound(s);
    }
  }

  lemma WorkerMoves(s: State, fails: bool)
    requires WorkerOk(s) && !s.worker.WRun? && !s.worker.WDelete? && !s.worker.WLoad?
    requires s.mutex.Some? ==> !s.worker.WLock? && !s.worker.WSleepLock?
    ensures WorkerOk(WorkerAct(s, fails))
  {
  }

  lemma WorkerReclaims(s: State, fails: bool)
    requires WorkerOk(s) && Reclaimed(s) && !s.worker.WDelete? && !s.worker.WRun?
    requires s.mutex.Some? ==> !s.worker.WLock? && !s.worker.WSleepLock?
    ensures Reclaimed(WorkerAct(s, fails))
  {
  }

  lemma WorkerKeepsOrder(s: State, fails: bool)
    requires Enabled(s, WorkerStep(fails))
    ensures WorkerAct(s, fails).stage == s.stage && WorkerAct(s, fails).order == s.order
  {
    match s.worker
    case WCritical(_, _) =>
    case _ =>
  }

  lemma WorkerKeepsLinks(s: State, fails: bool)
    requires Enabled(s, WorkerStep(fails))
    ensures var t := WorkerAct(s, fails); t.callable == s.callable && t.next == s.next && t.tail == s.tail
  {
    match s.worker
    case WCritical(_, _) =>
    case _ =>
  }

  lemma WorkerFrame(s: State, fails: bool)
    requires Enabled(s, WorkerStep(fails))
    ensures var t := WorkerAct(s, fails);
      t.stage == s.stage && t.callable == s.callable && t.order == s.order && t.next == s.next && t.tail == s.tail
  {
    WorkerKeepsOrder(s, fails);
    WorkerKeepsLinks(s, fails);
  }

  lemma WorkerCounts(s: State, fails: bool)
    requires Enabled(s, WorkerStep(fails))
    ensures var t := WorkerAct(s, fails);
      && t.counted == s.counted && t.pending - s.pending == s.finished - t.finished
      && t.finished == s.finished + (if s.worker.WCritical? then 1 else 0)
  {
    hide Blocked, Enabled;
  }

  lemma WorkerAdvances(s: State, fails: bool)
    requires Enabled(s, WorkerStep(fails))
    ensures WorkerAct(s, fails).at == s.at + (if s.worker.WDelete? then 1 else 0)
  {
  }

  lemma WorkerRanStays(s: State, fails: bool)
    requires Enabled(s, WorkerStep(fails)) && !s.worker.WRun? && !s.worker.WDelete?
    ensures WorkerAct(s, fails).ran == s.ran && !WorkerAct(s, fails).worker.WDelete?
  {
    hide Enabled;
  }

  lemma WorkerAccounting(s: State, fails: bool)
    requires Accounting(s) && Enabled(s, WorkerStep(fails))
    requires s.at == s.finished + (if Finishing(s.worker) then 1 else 0)
    ensures Accounting(WorkerAct(s, fails))
  {
    WorkerFrame(s, fails);
    WorkerCounts(s, fails);
    WorkerAdvances(s, fails);
  }

  lemma NodesSame(s: State, t: State)
    requires Nodes(s)
    requires t.stage == s.stage && t.callable == s.callable && t.order == s.order
    requires t.next == s.next && t.tail == s.tail
    ensures Nodes(t)
  {
  }

  lemma WorkerNodes(s: State, fails: bool)
    requires Nodes(s) && Enabled(s, WorkerStep(fails))
    ensures Nodes(WorkerAct(s, fails))
  {
    WorkerFrame(s, fails);
    NodesSame(s, WorkerAct(s, fails));
  }

  lemma WorkerRan(s: State, fails: bool)
    requires RanUpTo(s.order, s.callable, s.ran, RanIndex(s))
    requires Enabled(s, WorkerStep(fails)) && !s.worker.WRun? && !s.worker.WDelete?
    ensures var t := WorkerAct(s, fails); RanUpTo(t.order, t.callable, t.ran, RanIndex(t))
  {
    WorkerFrame(s, fails);
    WorkerAdvances(s, fails);
    WorkerRanStays(s, fails);
  }

  lemma WorkerKeepsOwn(s: State, fails: bool)
    requires Nodes(s) && WorkerOk(s) && Reclaimed(s) && Enabled(s, WorkerStep(fails))
    ensures WorkerOk(WorkerAct(s, fails)) && Reclaimed(WorkerAct(s, fails))
  {
    if s.worker.WRun? {
      WorkerRuns(s, fails);
    } else if s.worker.WDelete? {
      WorkerDeletes(s, fails);
    } else {
      if s.worker.WLoad? {
        WorkerLoads(s, fails);
      } else {
        WorkerMoves(s, fails);
      }
      WorkerReclaims(s, fails);
    }
  }

  lemma WorkerKeepsLatch(s: State, fails: bool)
    requires EventsOk(s) && Enabled(s, WorkerStep(fails))
    ensures EventsOk(WorkerAct(s, fails))
  {
    hide Latched;
    if s.worker.WCritical? && s.worker.failed {
      OfferEvents(s, TaskFailed(s.worker.curr));
    }
  }

  lemma WorkerKeepsCallers(s: State, fails: bool)
    requires WorkerOk(s) && Callers(s) && Enabled(s, WorkerStep(fails))
    ensures Callers(WorkerAct(s, fails))
  {
    CallersUnmoved(s, WorkerAct(s, fails));
  }

  lemma OfferedStays(events: seq<Event>, more: Event, v: nat)
    requires Offered(events, v)
    ensures Offered(events + [more], v)
  {
    var k :| 0 <= k < |events| && events[k] == Recorded(TaskFailed(v));
    assert (events + [more])[k] == Recorded(TaskFailed(v));
  }

  /** Another event leaves the account of the failures in order. */
  lemma FailuresStay(failures: seq<nat>, worker: Worker, events: seq<Event>, more: Event)
    requires FailuresOk(failures, worker, events)
    requires more.Recorded? ==> !more.source.TaskFailed?
    ensures FailuresOk(failures, worker, events + [more])
  {
    forall i | 0 <= i < |failures| && Offered(events, failures[i]) ensures Offered(events + [more], failures[i]) {
      OfferedStays(events, more, failures[i]);
    }
  }

  lemma WorkerOffers(failures: seq<nat>, worker: Worker, events: seq<Event>, next: Worker)
    requires FailuresOk(failures, worker, events) && Carried(next).None?
    requires Carried(worker).Some?
    ensures FailuresOk(failures, next, events + [Recorded(TaskFailed(Carried(worker).value))])
  {
    var more := Recorded(TaskFailed(Carried(worker).value));
    assert (events + [more])[|events|] == more;
    forall i | 0 <= i < |failures| ensures Offered(events + [more], failures[i]) {
      if Offered(events, failures[i]) {
        OfferedStays(events, more, failures[i]);
      }
    }
  }

  lemma WorkerFails(failures: seq<nat>, worker: Worker, events: seq<Event>, next: Worker)
    requires FailuresOk(failures, worker, events) && Carried(worker).None? && Carried(next).Some?
    ensures FailuresOk(failures + [Carried(next).value], next, events)
  {
    var more := failures + [Carried(next).value];
    assert more[|failures|] == Carried(next).value;
    forall k | 0 <= k < |events| ensures EventOk(more, events[k]) {
      assert EventOk(failures, events[k]);
    }
  }

  lemma WorkerCarries(s: State, fails: bool)
    requires Enabled(s, WorkerStep(fails)) && !s.worker.WRun? && !s.worker.WCritical?
    ensures Carried(WorkerAct(s, fails).worker) == Carried(s.worker)
  {
    hide Enabled;
  }

  lemma WorkerKeepsEvents(s: State, fails: bool)
    requires Enabled(s, WorkerStep(fails)) && !s.worker.WRun? && !s.worker.WCritical?
    ensures WorkerAct(s, fails).failures == s.failures && WorkerAct(s, fails).events == s.events
  {
    hide Enabled;
  }

  lemma WorkerFailures(s: State, fails: bool)
    requires FailuresOk(s.failures, s.worker, s.events) && Enabled(s, WorkerStep(fails))
    ensures var t := WorkerAct(s, fails); FailuresOk(t.failures, t.worker, t.events)
  {
    var t := WorkerAct(s, fails);
    if s.worker.WRun? {
      if Carried(t.worker).Some? {
        WorkerFails(s.failures, s.worker, s.events, t.worker);
      }
    } else if s.worker.WCritical? {
      if s.worker.failed {
        WorkerOffers(s.failures, s.worker, s.events, t.worker);
      }
    } else {
      WorkerCarries(s, fails);
      WorkerKeepsEvents(s, fails);
    }
  }

  lemma WorkerKeeps(s: State, fails: bool)
    requires Inv(s) && Enabled(s, WorkerStep(fails))
    ensures Inv(Apply(s, WorkerStep(fails)))
  {
    WorkerKeepsOwn(s, fails);
    WorkerNodes(s, fails);
    WorkerAccounting(s, fails);
    if s.worker.WRun? || s.worker.WDelete? {
      WorkerRunsNext(s, fails);
    } else {
      WorkerRan(s, fails);
    }
    WorkerKeepsLatch(s, fails);
    WorkerKeepsCallers(s, fails);
    WorkerFailures(s, fails);
  }

  // ----- sync and record_exception

  /** What the step of a caller leaves alone. */
  ghost predicate CallerFrame(s: State, t: State) {
    && t.stage == s.stage && t.callable == s.callable && t.order == s.order && t.next == s.next && t.tail == s.tail
    && t.head == s.head && t.pending == s.pending && t.done == s.done && t.worker == s.worker
    && t.destroyer == s.destroyer && t.at == s.at && t.freed == s.freed && t.ran == s.ran
    && t.counted == s.counted && t.finished == s.finished && t.failures == s.failures
    && (t.mutex == Some(WorkerHolds) <==> s.mutex == Some(WorkerHolds))
    && (t.mutex == Some(DestroyerHolds) <==> s.mutex == Some(DestroyerHolds))
  }

  lemma CallerKeepsQueue(s: State, t: State)
    requires Inv(s) && CallerFrame(s, t)
    ensures Nodes(t) && Accounting(t) && WorkerOk(t) && RanUpTo(t.order, t.callable, t.ran, RanIndex(t)) && Reclaimed(t)
  {
    NodesSame(s, t);
  }

  lemma NewCallers(s: State, t: State)
    requires EventsOk(s) && Callers(s) && CallerFrame(s, t)
    requires t.exception == s.exception && t.events == s.events && t.mutex == s.mutex
    requires s.syncs <= t.syncs && s.recorders <= t.recorders
    requires forall i | |s.syncs| <= i < |t.syncs| ::
      t.syncs[i].pc == SLock(false) && !t.syncs[i].low && !t.syncs[i].zero && !t.syncs[i].sawDone
    requires forall i | |s.recorders| <= i < |t.recorders| :: t.recorders[i].RLock?
    ensures EventsOk(t) && Callers(t)
  {
    forall i | 0 <= i < |t.syncs| ensures SyncOk(t, i) {
      if i < |s.syncs| {
        assert SyncOk(s, i);
      }
    }
    forall i | 0 <= i < |t.recorders| ensures RecorderOk(t, i) {
      if i < |s.recorders| {
        assert RecorderOk(s, i);
      }
    }
  }

  lemma NewSyncKeeps(s: State, allow: nat, nothrow: bool)
    requires Inv(s)
    ensures Inv(Apply(s, NewSync(allow, nothrow)))
  {
    var t := Apply(s, NewSync(allow, nothrow));
    CallerKeepsQueue(s, t);
    NewCallers(s, t);
  }

  lemma NewRecorderKeeps(s: State)
    requires Inv(s)
    ensures Inv(Apply(s, NewRecorder))
  {
    var t := Apply(s, NewRecorder);
    CallerKeepsQueue(s, t);
    NewCallers(s, t);
  }

  /** Before or at a look at the number of pending tasks. */
  predicate PollsPending(pc: SyncPc) {
    pc.SLock? || pc.SPending? || pc.SDone?
  }

  lemma PassFrame(s: State, i: nat, y: Sync, second: bool)
    requires i < |s.syncs|
    ensures var t := Pass(s, i, y, second);
      && t == s.(syncs := t.syncs, mutex := t.mutex)
      && |t.syncs| == |s.syncs| && t.syncs == s.syncs[i := t.syncs[i]] && t.syncs[i].nothrow == y.nothrow
  {
  }

  lemma PassOwn(s: State, i: nat, y: Sync, second: bool)
    requires i < |s.syncs| && s.mutex == Some(SyncHolds(i))
    requires (y.sawDone ==> s.done) && (y.zero ==> y.low) && (y.low || y.sawDone) && (second ==> y.zero || y.sawDone)
    ensures SyncOk(Pass(s, i, y, second), i)
  {
  }

  /** Where a poll that finds its condition true goes on from. */
  function Polled(s: State, y: Sync): Sync {
    if y.pc.SDone? then y.(sawDone := true) else Saw(s, y)
  }

  lemma SyncPollQueue(s: State, i: nat)
    requires i < |s.syncs| && SyncOk(s, i) && !Blocked(s, SyncStep(i))
    requires PollsPending(s.syncs[i].pc)
    ensures var t := SyncAct(s, i);
      && t.stage == s.stage && t.callable == s.callable && t.order == s.order && t.next == s.next && t.tail == s.tail
      && t.head == s.head && t.worker == s.worker && t.recorders == s.recorders
  {
    hide Pass, SyncOk;
    PassFrame(s, i, Polled(s, s.syncs[i]), s.syncs[i].pc.second);
  }

  lemma SyncLookQueue(s: State, i: nat)
    requires i < |s.syncs| && SyncOk(s, i) && !Blocked(s, SyncStep(i))
    requires !PollsPending(s.syncs[i].pc)
    ensures var t := SyncAct(s, i);
      && t.stage == s.stage && t.callable == s.callable && t.order == s.order && t.next == s.next && t.tail == s.tail
      && t.head == s.head && t.worker == s.worker && t.recorders == s.recorders
  {
  }

  lemma SyncQueue(s: State, i: nat)
    requires i < |s.syncs| && SyncOk(s, i) && !Blocked(s, SyncStep(i))
    ensures var t := SyncAct(s, i);
      && t.stage == s.stage && t.callable == s.callable && t.order == s.order && t.next == s.next && t.tail == s.tail
      && t.head == s.head && t.worker == s.worker && t.recorders == s.recorders
  {
    if PollsPending(s.syncs[i].pc) {
      SyncPollQueue(s, i);
    } else {
      SyncLookQueue(s, i);
    }
  }

  lemma SyncPollCounts(s: State, i: nat)
    requires i < |s.syncs| && SyncOk(s, i) && !Blocked(s, SyncStep(i))
    requires PollsPending(s.syncs[i].pc)
    ensures var t := SyncAct(s, i);
      && t.pending == s.pending && t.done == s.done && t.destroyer == s.destroyer && t.at == s.at
      && t.freed == s.freed && t.ran == s.ran && t.counted == s.counted && t.finished == s.finished
      && t.failures == s.failures
  {
    hide Pass, SyncOk;
    PassFrame(s, i, Polled(s, s.syncs[i]), s.syncs[i].pc.second);
  }

  lemma SyncLookCounts(s: State, i: nat)
    requires i < |s.syncs| && SyncOk(s, i) && !Blocked(s, SyncStep(i))
    requires !PollsPending(s.syncs[i].pc)
    ensures var t := SyncAct(s, i);
      && t.pending == s.pending && t.done == s.done && t.destroyer == s.destroyer && t.at == s.at
      && t.freed == s.freed && t.ran == s.ran && t.counted == s.counted && t.finished == s.finished
      && t.failures == s.failures
  {
  }

  lemma SyncCounts(s: State, i: nat)
    requires i < |s.syncs| && SyncOk(s, i) && !Blocked(s, SyncStep(i))
    ensures var t := SyncAct(s, i);
      && t.pending == s.pending && t.done == s.done && t.destroyer == s.destroyer && t.at == s.at
      && t.freed == s.freed && t.ran == s.ran && t.counted == s.counted && t.finished == s.finished
      && t.failures == s.failures
  {
    if PollsPending(s.syncs[i].pc) {
      SyncPollCounts(s, i);
    } else {
      SyncLookCounts(s, i);
    }
  }

  /** The caller's step runs with the mutex in its own hands or free. */
  lemma SyncMutex(s: State, i: nat)
    requires i < |s.syncs| && SyncOk(s, i) && !Blocked(s, SyncStep(i))
    ensures var t := SyncAct(s, i);
      && (t == s || s.mutex in {None, Some(SyncHolds(i))})
      && (t == s || t.mutex in {None, Some(SyncHolds(i))})
  {
  }

  lemma SyncPollUpdates(s: State, i: nat)
    requires i < |s.syncs| && SyncOk(s, i) && !Blocked(s, SyncStep(i))
    requires PollsPending(s.syncs[i].pc)
    ensures var t := SyncAct(s, i);
      && |t.syncs| == |s.syncs| && t.syncs == s.syncs[i := t.syncs[i]] && t.syncs[i].nothrow == s.syncs[i].nothrow
  {
    hide Pass, SyncOk;
    PassFrame(s, i, Polled(s, s.syncs[i]), s.syncs[i].pc.second);
  }

  lemma SyncLookUpdates(s: State, i: nat)
    requires i < |s.syncs| && SyncOk(s, i) && !Blocked(s, SyncStep(i))
    requires !PollsPending(s.syncs[i].pc)
    ensures var t := SyncAct(s, i);
      && |t.syncs| == |s.syncs| && t.syncs == s.syncs[i := t.syncs[i]] && t.syncs[i].nothrow == s.syncs[i].nothrow
  {
  }

  lemma SyncUpdates(s: State, i: nat)
    requires i < |s.syncs| && SyncOk(s, i) && !Blocked(s, SyncStep(i))
    ensures var t := SyncAct(s, i);
      && |t.syncs| == |s.syncs| && t.syncs == s.syncs[i := t.syncs[i]] && t.syncs[i].nothrow == s.syncs[i].nothrow
  {
    if PollsPending(s.syncs[i].pc) {
      SyncPollUpdates(s, i);
    } else {
      SyncLookUpdates(s, i);
    }
  }

  lemma SyncFrame(s: State, i: nat)
    requires i < |s.syncs| && SyncOk(s, i) && !Blocked(s, SyncStep(i))
    ensures var t := SyncAct(s, i);
      && CallerFrame(s, t) && t.recorders == s.recorders && |t.syncs| == |s.syncs|
      && t.syncs == s.syncs[i := t.syncs[i]] && t.syncs[i].nothrow == s.syncs[i].nothrow
      && (t == s || s.mutex in {None, Some(SyncHolds(i))})
      && (t == s || t.mutex in {None, Some(SyncHolds(i))})
  {
    SyncQueue(s, i);
    SyncCounts(s, i);
    SyncMutex(s, i);
    SyncUpdates(s, i);
  }

  lemma SyncPollOwn(s: State, i: nat)
    requires i < |s.syncs| && SyncOk(s, i) && !Blocked(s, SyncStep(i))
    requires PollsPending(s.syncs[i].pc)
    ensures SyncOk(SyncAct(s, i), i)
  {
    hide Pass;
    var y := s.syncs[i];
    if (y.pc.SPending? && s.pending <= (if y.pc.second then 0 else y.allow)) || (y.pc.SDone? && s.done) {
      PassOwn(s, i, Polled(s, y), y.pc.second);
    }
  }

  lemma SyncLookOwn(s: State, i: nat)
    requires i < |s.syncs| && SyncOk(s, i) && !Blocked(s, SyncStep(i))
    requires !PollsPending(s.syncs[i].pc)
    ensures SyncOk(SyncAct(s, i), i)
  {
  }

  lemma SyncOwn(s: State, i: nat)
    requires i < |s.syncs| && SyncOk(s, i) && !Blocked(s, SyncStep(i))
    ensures SyncOk(SyncAct(s, i), i)
  {
    if PollsPending(s.syncs[i].pc) {
      SyncPollOwn(s, i);
    } else {
      SyncLookOwn(s, i);
    }
  }

  lemma SyncLatch(s: State, i: nat)
    requires i < |s.syncs| && SyncOk(s, i)
    ensures var t := SyncAct(s, i);
      if s.syncs[i].pc.STake? then
        !s.syncs[i].nothrow && t.exception.None? && t.events == s.events + [Taken(i, s.exception)]
      else t.exception == s.exception && t.events == s.events
  {
  }

  lemma SyncOthers(s: State, t: State, i: nat)
    requires Callers(s) && i < |s.syncs| && |t.syncs| == |s.syncs| && t.syncs == s.syncs[i := t.syncs[i]]
    requires t.recorders == s.recorders && t.done == s.done
    requires s.mutex in {None, Some(SyncHolds(i))} && t.mutex in {None, Some(SyncHolds(i))}
    requires SyncOk(t, i)
    requires s.mutex == Some(SyncHolds(i)) || t.exception == s.exception
    ensures Callers(t)
  {
    forall j | 0 <= j < |t.syncs| ensures SyncOk(t, j) {
      assert SyncOk(s, j);
    }
    forall j | 0 <= j < |t.recorders| ensures RecorderOk(t, j) {
      assert RecorderOk(s, j);
    }
  }

  lemma TakeEvents(s: State, t: State, i: nat)
    requires EventsOk(s) && i < |s.syncs| && !s.syncs[i].nothrow
    requires |t.syncs| == |s.syncs| && forall j | 0 <= j < |s.syncs| :: t.syncs[j].nothrow == s.syncs[j].nothrow
    requires if t.events == s.events then t.exception == s.exception
             else t.events == s.events + [Taken(i, s.exception)] && t.exception.None?
    ensures EventsOk(t)
  {
    if t.events != s.events {
      assert t.events[..|s.events|] == s.events;
      forall k | 0 <= k < |t.events| && t.events[k].Taken? ensures t.events[k].exception == Latched(t.events[..k]) {
        assert t.events[..k] == s.events[..k];
      }
    }
  }

  lemma SyncKeepsLatch(s: State, i: nat)
    requires EventsOk(s) && Callers(s) && i < |s.syncs| && !Blocked(s, SyncStep(i))
    ensures EventsOk(SyncAct(s, i)) && Callers(SyncAct(s, i))
  {
    var t := SyncAct(s, i);
    assert SyncOk(s, i);
    SyncFrame(s, i);
    SyncOwn(s, i);
    SyncLatch(s, i);
    if s.syncs[i].pc.STake? {
      TakeEvents(s, t, i);
    }
    if t != s {
      SyncOthers(s, t, i);
    }
  }

  lemma SyncKeeps(s: State, i: nat)
    requires Inv(s) && Enabled(s, SyncStep(i))
    ensures Inv(Apply(s, SyncStep(i)))
  {
    assert SyncOk(s, i);
    SyncFrame(s, i);
    CallerKeepsQueue(s, SyncAct(s, i));
    SyncKeepsLatch(s, i);
    SyncLatch(s, i);
    FailuresStay(s.failures, s.worker, s.events, Taken(i, s.exception));
  }

  lemma PeekFailsOthers(s: State, i: nat)
    requires EventsOk(s) && Callers(s) && i < |s.syncs| && s.syncs[i].pc.SPeekLock?
    ensures var t := Put(s, i, s.syncs[i].(pc := SLock(true))); EventsOk(t) && Callers(t)
  {
    var t := Put(s, i, s.syncs[i].(pc := SLock(true)));
    forall j | 0 <= j < |t.syncs| ensures SyncOk(t, j) {
      assert SyncOk(s, j);
    }
    forall j | 0 <= j < |t.recorders| ensures RecorderOk(t, j) {
      assert RecorderOk(s, j);
    }
  }

  lemma PeekFailsKeeps(s: State, i: nat)
    requires Inv(s) && Enabled(s, PeekFails(i))
    ensures Inv(Apply(s, PeekFails(i)))
  {
    var t := Apply(s, PeekFails(i));
    assert SyncOk(s, i);
    CallerKeepsQueue(s, t);
    PeekFailsOthers(s, i);
  }

  lemma RecorderKeepsLatch(s: State, i: nat)
    requires EventsOk(s) && Callers(s) && i < |s.recorders| && !Blocked(s, RecorderStep(i))
    ensures EventsOk(RecorderAct(s, i)) && Callers(RecorderAct(s, i)) && CallerFrame(s, RecorderAct(s, i))
  {
    var t := RecorderAct(s, i);
    assert RecorderOk(s, i);
    if s.recorders[i].RHolds? {
      OfferEvents(s, CallbackFailed(i));
    }
    forall j | 0 <= j < |t.syncs| ensures SyncOk(t, j) {
      assert SyncOk(s, j);
    }
    forall j | 0 <= j < |t.recorders| ensures RecorderOk(t, j) {
      assert RecorderOk(s, j);
    }
  }

  lemma RecorderKeeps(s: State, i: nat)
    requires Inv(s) && Enabled(s, RecorderStep(i))
    ensures Inv(Apply(s, RecorderStep(i)))
  {
    hide Linkage, Covered;
    RecorderKeepsLatch(s, i);
    CallerKeepsQueue(s, RecorderAct(s, i));
    FailuresStay(s.failures, s.worker, s.events, Recorded(CallbackFailed(i)));
  }

  // ----- the destructor

  lemma DestroyBegins(s: State)
    requires Nodes(s) && WorkerOk(s) && Reclaimed(s) && Enabled(s, Destroy)
    ensures Nodes(Apply(s, Destroy)) && WorkerOk(Apply(s, Destroy)) && Reclaimed(Apply(s, Destroy))
  {
  }

  lemma DestroyKeeps(s: State)
    requires Inv(s) && Enabled(s, Destroy)
    ensures Inv(Apply(s, Destroy))
  {
    hide Linkage, Covered;
    DestroyBegins(s);
    CallersUnmoved(s, Apply(s, Destroy));
  }

  /** With no enqueue in flight the links are exactly the order. */
  lemma AllLinked(s: State, k: nat)
    requires Nodes(s) && NoneInFlight(s) && k < |s.order|
    ensures if k + 1 < |s.order| then s.order[k] in s.next && s.next[s.order[k]] == s.order[k + 1]
            else s.order[k] !in s.next
  {
    if k + 1 < |s.order| {
      assert LinkAt(s.stage, s.order, s.next, k + 1);
    }
  }

  lemma DestroyReclaims(s: State)
    requires Nodes(s) && WorkerOk(s) && Reclaimed(s) && Enabled(s, DestroyStep)
    ensures Reclaimed(DestroyAct(s))
  {
    hide Covered;
    if s.destroyer.DWalk? && s.destroyer.node.Some? {
      var k := |s.freed|;
      AllLinked(s, k);
      assert s.order[..k + 1] == s.order[..k] + [s.order[k]];
      if k + 1 == |s.order| {
        assert s.order[..k + 1] == s.order;
      }
    }
  }

  lemma DestroyWorker(s: State)
    requires WorkerOk(s) && Reclaimed(s) && Enabled(s, DestroyStep)
    ensures WorkerOk(DestroyAct(s))
  {
  }

  lemma DestroyQueue(s: State)
    requires Enabled(s, DestroyStep)
    ensures var t := DestroyAct(s);
      && t.stage == s.stage && t.callable == s.callable && t.order == s.order && t.next == s.next && t.tail == s.tail
      && t.pending == s.pending && t.counted == s.counted && t.finished == s.finished && t.at == s.at
      && t.ran == s.ran && t.worker == s.worker && t.failures == s.failures
  {
  }

  lemma DestroyFrame(s: State)
    requires Reclaimed(s) && Enabled(s, DestroyStep)
    ensures var t := DestroyAct(s);
      && t.syncs == s.syncs && t.recorders == s.recorders && t.exception == s.exception && t.events == s.events
      && (s.done ==> t.done) && (t.mutex == s.mutex || (Foreign(s.mutex) && Foreign(t.mutex)))
  {
  }

  lemma DestroyStepKeeps(s: State)
    requires Inv(s) && Enabled(s, DestroyStep)
    ensures Inv(Apply(s, DestroyStep))
  {
    hide Linkage, Covered;
    DestroyFrame(s);
    DestroyQueue(s);
    NodesSame(s, DestroyAct(s));
    DestroyReclaims(s);
    DestroyWorker(s);
    CallersUnmoved(s, DestroyAct(s));
  }

  lemma StepKeeps(s: State, l: Label)
    requires Inv(s) && Enabled(s, l)
    ensures Inv(Apply(s, l))
  {
    hide Inv;
    match l
    case NewEnqueue(hasTask) => NewEnqueueKeeps(s, hasTask);
    case EnqueueStep(v) => if !s.stage[v].Linked? { EnqueueKeeps(s, v); }
    case WorkerStep(fails) => WorkerKeeps(s, fails);
    case NewSync(allow, nothrow) => NewSyncKeeps(s, allow, nothrow);
    case SyncStep(i) => SyncKeeps(s, i);
    case PeekFails(i) => PeekFailsKeeps(s, i);
    case NewRecorder => NewRecorderKeeps(s);
    case RecorderStep(i) => RecorderKeeps(s, i);
    case Destroy => DestroyKeeps(s);
    case DestroyStep => DestroyStepKeeps(s);
  }

  /** Every state of every run satisfies the invariant. */
  lemma {:induction false} RunKeeps(run: seq<State>, i: nat)
    requires Run(run) && i < |run|
    ensures Inv(run[i])
  {
    if i == 0 {
      InitialInv();
    } else {
      RunKeeps(run, i - 1);
      assert StepAt(run, i - 1);
      var l :| Enabled(run[i - 1], l) && run[i] == Apply(run[i - 1], l);
      StepKeeps(run[i - 1], l);
    }
  }
}
