/**
 What the invariant of the task queue gives over whole runs: tasks run in the order of the tail exchanges, each once;
 no node is touched after it was deleted, and every node is deleted exactly once; pending counts what is counted and not
 finished; sync waits for what it promises; the exception latch hands out the first exception since the last clear.
 */
module TaskQueueTheorems {
  import opened TaskQueueModel
  import opened TaskQueueProofs

  ghost predicate Distinct(xs: seq<nat>) {
    forall i, j | 0 <= i < j < |xs| :: xs[i] != xs[j]
  }

  // ----- histories only grow

  ghost predicate Grows(s: State, t: State) {
    && s.order <= t.order && s.ran <= t.ran && s.freed <= t.freed && s.events <= t.events
    && |s.stage| <= |t.stage| && |s.syncs| <= |t.syncs| && s.callable <= t.callable
  }

  lemma EnqueueGrows(s: State, v: nat)
    requires v < |s.stage|
    ensures Grows(s, EnqueueAct(s, v))
  {
  }

  lemma WorkerGrows(s: State, fails: bool)
    requires Enabled(s, WorkerStep(fails))
    ensures Grows(s, WorkerAct(s, fails))
  {
    hide Enabled;
    WorkerFrame(s, fails);
  }

  lemma SyncGrows(s: State, i: nat)
    requires Callers(s) && Enabled(s, SyncStep(i))
    ensures Grows(s, SyncAct(s, i))
  {
    assert SyncOk(s, i);
    SyncFrame(s, i);
    SyncLatch(s, i);
  }

  lemma StepGrows(s: State, l: Label)
    requires Callers(s) && Enabled(s, l)
    ensures Grows(s, Apply(s, l))
  {
    hide Callers, SyncAct, Pass, WorkerAct, EnqueueAct;
    match l
    case EnqueueStep(v) => EnqueueGrows(s, v);
    case WorkerStep(fails) => WorkerGrows(s, fails);
    case SyncStep(i) => SyncGrows(s, i);
    case _ =>
  }

  lemma NextGrows(s: State, t: State)
    requires Callers(s) && Next(s, t)
    ensures Grows(s, t)
  {
    var l :| Enabled(s, l) && t == Apply(s, l);
    StepGrows(s, l);
  }

  lemma LastStepGrows(run: seq<State>, j: nat)
    requires Run(run) && 0 < j < |run|
    ensures Grows(run[j - 1], run[j])
  {
    RunKeeps(run, j - 1);
    assert StepAt(run, j - 1);
    NextGrows(run[j - 1], run[j]);
  }

  lemma GrowsTwice(s: State, t: State, u: State)
    requires Grows(s, t) && Grows(t, u)
    ensures Grows(s, u)
  {
  }

  lemma {:induction false} RunGrows(run: seq<State>, i: nat, j: nat)
    requires Run(run) && i <= j < |run|
    ensures Grows(run[i], run[j])
    decreases j
  {
    if i < j {
      RunGrows(run, i, j - 1);
      LastStepGrows(run, j);
      GrowsTwice(run[i], run[j - 1], run[j]);
    }
  }

  // ----- queue order

  /** A task of the filtered order sits at a position of the order, after the tasks before it. */
  lemma {:induction false} CallablesAt(order: seq<nat>, callable: seq<bool>, k: nat, i: nat) returns (p: nat)
    requires k < |order| && i < |Callables(order, callable, k)|
    ensures 0 < p <= k && order[p] == Callables(order, callable, k)[i]
    ensures order[p] < |callable| && callable[order[p]]
    ensures |Callables(order, callable, p - 1)| == i
  {
    if i < |Callables(order, callable, k - 1)| {
      p := CallablesAt(order, callable, k - 1, i);
    } else {
      p := k;
    }
  }

  lemma {:induction false} CallablesPrefix(order: seq<nat>, callable: seq<bool>, k: nat, j: nat)
    requires k <= j < |order|
    ensures Callables(order, callable, k) <= Callables(order, callable, j)
  {
    if k < j {
      CallablesPrefix(order, callable, k, j - 1);
    }
  }

  lemma CallablesHave(order: seq<nat>, callable: seq<bool>, k: nat, p: nat)
    requires 0 < p <= k < |order| && order[p] < |callable| && callable[order[p]]
    ensures order[p] in Callables(order, callable, k)
  {
    CallablesPrefix(order, callable, p, k);
    var some := Callables(order, callable, p);
    assert some[|some| - 1] == order[p];
  }

  /** The tasks of the published nodes, in tail-exchange order; the dummy has none. */
  function Enqueued(s: State): seq<nat> {
    if s.order == [] then [] else Callables(s.order, s.callable, |s.order| - 1)
  }

  /** The tasks run so far are a prefix of the enqueued tasks in tail-exchange order, with none skipped. */
  lemma RanIsAPrefix(run: seq<State>, i: nat)
    requires Run(run) && i < |run|
    ensures run[i].ran <= Enqueued(run[i])
  {
    RunKeeps(run, i);
    CallablesPrefix(run[i].order, run[i].callable, RanIndex(run[i]), |run[i].order| - 1);
  }

  lemma RanPositions(s: State, a: nat, b: nat) returns (p: nat, q: nat)
    requires RanUpTo(s.order, s.callable, s.ran, RanIndex(s)) && a < b < |s.ran|
    ensures 0 < p < q < |s.order| && s.order[p] == s.ran[a] && s.order[q] == s.ran[b]
    ensures s.ran[b] < |s.callable| && s.callable[s.ran[b]]
  {
    p := CallablesAt(s.order, s.callable, RanIndex(s), a);
    q := CallablesAt(s.order, s.callable, RanIndex(s), b);
    if q <= p {
      CallablesPrefix(s.order, s.callable, q - 1, p - 1);
    }
  }

  /** Read without the filter: what ran was published and callable, in publication order, each task once. */
  lemma RanInOrder(run: seq<State>, i: nat, a: nat, b: nat) returns (p: nat, q: nat)
    requires Run(run) && i < |run| && a < b < |run[i].ran|
    ensures var s := run[i];
      && 0 < p < q < |s.order| && s.order[p] == s.ran[a] && s.order[q] == s.ran[b] && s.ran[a] != s.ran[b]
      && s.ran[b] < |s.callable| && s.callable[s.ran[b]]
  {
    RunKeeps(run, i);
    p, q := RanPositions(run[i], a, b);
    assert run[i].order[p] != run[i].order[q];
  }

  lemma RanPosition(s: State, w: nat) returns (q: nat)
    requires RanUpTo(s.order, s.callable, s.ran, RanIndex(s)) && w in s.ran
    ensures 0 < q <= RanIndex(s) < |s.order| && s.order[q] == w
  {
    var a :| 0 <= a < |s.ran| && s.ran[a] == w;
    q := CallablesAt(s.order, s.callable, RanIndex(s), a);
  }

  lemma UpToIndexRan(s: State, p: nat)
    requires RanUpTo(s.order, s.callable, s.ran, RanIndex(s)) && 0 < p <= RanIndex(s)
    requires s.order[p] < |s.callable| && s.callable[s.order[p]]
    ensures s.order[p] in s.ran
  {
    CallablesHave(s.order, s.callable, RanIndex(s), p);
  }

  /** A task ahead of one that ran has run. */
  lemma NoneSkipped(run: seq<State>, i: nat, p: nat, q: nat)
    requires Run(run) && i < |run| && 0 < p <= q < |run[i].order| && run[i].order[q] in run[i].ran
    requires run[i].order[p] < |run[i].callable| && run[i].callable[run[i].order[p]]
    ensures run[i].order[p] in run[i].ran
  {
    RunKeeps(run, i);
    var q' := RanPosition(run[i], run[i].order[q]);
    UpToIndexRan(run[i], p);
  }

  /** A node linked at state i is ahead of any node allocated later. */
  lemma PublishedBefore(run: seq<State>, i: nat, j: nat, v: nat, q: nat) returns (p: nat)
    requires Run(run) && i <= j < |run| && 0 < v < |run[i].stage| && run[i].stage[v].Linked?
    requires q < |run[j].order| && |run[i].stage| <= run[j].order[q]
    ensures 0 < p < q && run[j].order[p] == v && run[i].callable <= run[j].callable
  {
    RunKeeps(run, i);
    RunGrows(run, i, j);
    assert Published(run[i].stage[v]);
    p :| 0 <= p < |run[i].order| && run[i].order[p] == v;
  }

  /** First in, first out across threads: an enqueue call that returned before another began has its task run first. */
  lemma FifoAcrossThreads(run: seq<State>, i: nat, j: nat, v: nat, w: nat)
    requires Run(run) && i <= j < |run|
    requires 0 < v < |run[i].stage| && run[i].stage[v].Linked? && v < |run[i].callable| && run[i].callable[v]
    requires |run[i].stage| <= w && w in run[j].ran
    ensures v in run[j].ran
  {
    RunKeeps(run, j);
    var q := RanPosition(run[j], w);
    var p := PublishedBefore(run, i, j, v, q);
    UpToIndexRan(run[j], p);
  }

  // ----- reclamation

  /** Freed nodes are pairwise different: nothing is deleted twice, by worker or destructor. */
  lemma FreedOnce(run: seq<State>, i: nat)
    requires Run(run) && i < |run|
    ensures Distinct(run[i].freed) && run[i].freed <= run[i].order
  {
    RunKeeps(run, i);
  }

  /** The nodes some thread may still touch: the tail, the prev of an enqueue between exchange and link, the worker's
      current and next node, and head except while the worker is about to store it. */
  ghost predicate Touched(s: State, v: nat) {
    || v == s.tail
    || (exists w :: 0 <= w < |s.stage| && s.stage[w] == Linking(v))
    || v == Current(s.worker)
    || ((s.worker.WRun? || s.worker.WDelete?) && v == s.worker.next)
    || (!s.worker.WStoreHead? && v == s.head)
  }

  lemma TouchedPosition(s: State, v: nat) returns (p: nat)
    requires Nodes(s) && WorkerOk(s) && Touched(s, v)
    ensures s.at <= p < |s.order| && s.order[p] == v
  {
    if v == s.tail {
      p := |s.order| - 1;
    } else if w :| 0 <= w < |s.stage| && s.stage[w] == Linking(v) {
      assert Published(s.stage[w]);
      var q :| 0 <= q < |s.order| && s.order[q] == w;
      assert LinkAt(s.stage, s.order, s.next, q);
      p := q - 1;
    } else if (s.worker.WRun? || s.worker.WDelete?) && v == s.worker.next {
      p := s.at + 1;
    } else {
      p := s.at;
    }
  }

  /** No thread can reach a deleted node before the destructor walks the rest of the list. */
  lemma TouchedIsNotFreed(run: seq<State>, i: nat, v: nat)
    requires Run(run) && i < |run| && Touched(run[i], v)
    requires !run[i].destroyer.DWalk? && !run[i].destroyer.DFinished?
    ensures v !in run[i].freed
  {
    RunKeeps(run, i);
    var p := TouchedPosition(run[i], v);
  }

  /** The destructor deletes only nodes not yet deleted, and when it ends every node ever allocated is deleted. */
  lemma EveryNodeFreed(run: seq<State>, i: nat)
    requires Run(run) && i < |run|
    ensures run[i].destroyer.DWalk? && run[i].destroyer.node.Some? ==> run[i].destroyer.node.value !in run[i].freed
    ensures run[i].destroyer.DFinished? ==> forall v | 0 <= v < |run[i].stage| :: v in run[i].freed
  {
    RunKeeps(run, i);
    var s := run[i];
    if s.destroyer.DFinished? {
      forall v | 0 <= v < |s.stage| ensures v in s.freed {
        assert Published(s.stage[v]);
      }
    }
  }

  // ----- pending and sync

  /** pending is what was counted and is not finished: published and unfinished, or counted and not yet published. */
  lemma PendingAccounting(run: seq<State>, i: nat)
    requires Run(run) && i < |run|
    ensures var s := run[i];
      && 0 <= s.pending == s.counted - s.finished
      && s.pending == |s.order| - 1 - s.finished + Unpublished(s.stage)
      && (s.worker.WCritical? ==> s.pending >= 1)
  {
    RunKeeps(run, i);
  }

  lemma {:induction false} UnpublishedMember(stage: seq<Stage>, v: nat)
    requires v < |stage| && stage[v].Exchanging?
    ensures Unpublished(stage) >= 1
  {
    if v < |stage| - 1 {
      UnpublishedMember(stage[..|stage| - 1], v);
    }
  }

  /** When pending is zero every counted enqueue has had its task run and its failure, if any, recorded. */
  lemma DrainedMeansRan(s: State, v: nat)
    requires Inv(s) && s.pending == 0 && 0 < v < |s.stage| && !s.stage[v].Counting? && s.callable[v]
    ensures v in s.ran && !Finishing(s.worker)
  {
    if s.stage[v].Exchanging? {
      UnpublishedMember(s.stage, v);
    }
    assert Published(s.stage[v]);
    var p :| 0 <= p < |s.order| && s.order[p] == v;
    UpToIndexRan(s, p);
  }

  /** Call c has passed a moment in the run, while it was active, at which at most n counted tasks were unfinished. */
  ghost predicate SawAtMost(run: seq<State>, upTo: nat, c: nat, n: nat)
    requires upTo < |run|
  {
    exists j :: 0 <= j <= upTo && c < |run[j].syncs| && run[j].counted - run[j].finished <= n
  }

  lemma WorkerCallers(s: State, fails: bool)
    requires Enabled(s, WorkerStep(fails))
    ensures WorkerAct(s, fails).syncs == s.syncs
  {
  }

  lemma DestroyCallers(s: State)
    ensures DestroyAct(s).syncs == s.syncs
  {
  }

  predicate Started(y: Sync) {
    y.pc == SLock(false) && !y.low && !y.zero && !y.sawDone && !y.clear
  }

  /** Only a sync step changes a sync call; a new one starts at its first wait. */
  lemma OthersKeepSyncs(s: State, l: Label)
    requires Enabled(s, l) && !l.SyncStep? && !l.PeekFails?
    ensures s.syncs <= Apply(s, l).syncs
    ensures forall c | |s.syncs| <= c < |Apply(s, l).syncs| :: Started(Apply(s, l).syncs[c])
  {
    match l
    case WorkerStep(fails) => WorkerCallers(s, fails);
    case DestroyStep => DestroyCallers(s);
    case _ =>
  }

  /** low and zero are set only on a load of pending that shows it, clear only on a look at an empty latch. */
  ghost predicate FlagsFrom(s: State, before: Sync, after: Sync) {
    && after.allow == before.allow && after.nothrow == before.nothrow
    && (after.low ==> before.low || s.pending <= before.allow)
    && (after.zero ==> before.zero || s.pending <= 0)
    && (after.clear ==> before.clear || s.exception.None?)
  }

  lemma PassKeepsFlags(s: State, i: nat, y: Sync, second: bool)
    requires i < |s.syncs|
    ensures |Pass(s, i, y, second).syncs| == |s.syncs|
    ensures Pass(s, i, y, second).syncs[i] == y.(pc := Pass(s, i, y, second).syncs[i].pc)
  {
  }

  lemma SyncLoadsPending(s: State, i: nat)
    requires i < |s.syncs| && s.syncs[i].pc.SPending?
    ensures |SyncAct(s, i).syncs| == |s.syncs| && FlagsFrom(s, s.syncs[i], SyncAct(s, i).syncs[i])
  {
    hide Pass;
    var y := s.syncs[i];
    var seen := Saw(s, y);
    PassKeepsFlags(s, i, seen, y.pc.second);
    assert FlagsFrom(s, y, seen);
    var z := SyncAct(s, i).syncs[i];
    assert z == seen.(pc := z.pc);
  }

  lemma SyncLoadsAgain(s: State, i: nat)
    requires i < |s.syncs| && s.syncs[i].pc.SExceptionPending?
    ensures |SyncAct(s, i).syncs| == |s.syncs| && FlagsFrom(s, s.syncs[i], SyncAct(s, i).syncs[i])
  {
  }

  lemma SyncPasses(s: State, i: nat)
    requires i < |s.syncs| && s.syncs[i].pc.SDone?
    ensures |SyncAct(s, i).syncs| == |s.syncs| && FlagsFrom(s, s.syncs[i], SyncAct(s, i).syncs[i])
  {
  }

  lemma SyncPeeks(s: State, i: nat)
    requires i < |s.syncs| && s.syncs[i].pc.SPeek?
    ensures |SyncAct(s, i).syncs| == |s.syncs| && FlagsFrom(s, s.syncs[i], SyncAct(s, i).syncs[i])
  {
  }

  lemma SyncLocks(s: State, i: nat)
    requires i < |s.syncs| && (s.syncs[i].pc.SLock? || s.syncs[i].pc.SPeekLock? || s.syncs[i].pc.SReturned?)
    ensures |SyncAct(s, i).syncs| == |s.syncs| && FlagsFrom(s, s.syncs[i], SyncAct(s, i).syncs[i])
  {
    var y := s.syncs[i];
    assert SyncAct(s, i).syncs[i] == y.(pc := SyncAct(s, i).syncs[i].pc);
  }

  lemma SyncTakes(s: State, i: nat)
    requires i < |s.syncs| && (s.syncs[i].pc.SException? || s.syncs[i].pc.SExceptionDone? || s.syncs[i].pc.STake?)
    ensures |SyncAct(s, i).syncs| == |s.syncs| && FlagsFrom(s, s.syncs[i], SyncAct(s, i).syncs[i])
  {
  }

  lemma SyncLoads(s: State, i: nat)
    requires i < |s.syncs|
    ensures |SyncAct(s, i).syncs| == |s.syncs| && FlagsFrom(s, s.syncs[i], SyncAct(s, i).syncs[i])
  {
    match s.syncs[i].pc
    case SPending(_) => SyncLoadsPending(s, i);
    case SExceptionPending => SyncLoadsAgain(s, i);
    case SDone(_) => SyncPasses(s, i);
    case SPeek => SyncPeeks(s, i);
    case SException => SyncTakes(s, i);
    case SExceptionDone => SyncTakes(s, i);
    case STake => SyncTakes(s, i);
    case _ => SyncLocks(s, i);
  }

  lemma SyncFlags(s: State, l: Label, c: nat)
    requires Callers(s) && Enabled(s, l) && c < |Apply(s, l).syncs|
    ensures if c < |s.syncs| then FlagsFrom(s, s.syncs[c], Apply(s, l).syncs[c]) else Started(Apply(s, l).syncs[c])
  {
    if l.SyncStep? {
      SyncLoads(s, l.i);
      assert SyncOk(s, l.i);
      SyncFrame(s, l.i);
    } else if !l.PeekFails? {
      OthersKeepSyncs(s, l);
    }
  }

  /** Call c has passed a moment in the run, while it was active, at which no exception was held. */
  ghost predicate SawNoException(run: seq<State>, upTo: nat, c: nat)
    requires upTo < |run|
  {
    exists j :: 0 <= j <= upTo && c < |run[j].syncs| && run[j].exception.None?
  }

  lemma LaterMoment(run: seq<State>, i: nat, c: nat, n: nat)
    requires 0 < i < |run| && Accounting(run[i - 1]) && c < |run[i - 1].syncs|
    requires SawAtMost(run, i - 1, c, n) || run[i - 1].pending <= n
    ensures SawAtMost(run, i, c, n)
  {
  }

  lemma {:induction false} FlagsHaveMoments(run: seq<State>, i: nat, c: nat)
    requires Run(run) && i < |run| && c < |run[i].syncs|
    ensures run[i].syncs[c].low ==> SawAtMost(run, i, c, run[i].syncs[c].allow)
    ensures run[i].syncs[c].zero ==> SawAtMost(run, i, c, 0)
    ensures run[i].syncs[c].clear ==> SawNoException(run, i, c)
  {
    hide Inv;
    if i > 0 {
      RunKeeps(run, i - 1);
      assert StepAt(run, i - 1);
      var l :| Enabled(run[i - 1], l) && run[i] == Apply(run[i - 1], l);
      SyncFlags(run[i - 1], l, c);
      if c < |run[i - 1].syncs| {
        FlagsHaveMoments(run, i - 1, c);
        if run[i].syncs[c].low {
          LaterMoment(run, i, c, run[i].syncs[c].allow);
        }
        if run[i].syncs[c].zero {
          LaterMoment(run, i, c, 0);
        }
      }
    }
  }

  /** sync(n) that returned saw a moment with at most n unfinished tasks, and one that threw a moment with none, unless
      it saw the queue being destroyed. */
  lemma SyncWaited(run: seq<State>, i: nat, c: nat)
    requires Run(run) && i < |run| && c < |run[i].syncs| && run[i].syncs[c].pc.SReturned?
    ensures run[i].syncs[c].sawDone || SawAtMost(run, i, c, run[i].syncs[c].allow)
    ensures run[i].syncs[c].pc.thrown.Some? ==> run[i].syncs[c].sawDone || SawAtMost(run, i, c, 0)
    ensures run[i].syncs[c].sawDone ==> run[i].done
  {
    RunKeeps(run, i);
    assert SyncOk(run[i], c);
    FlagsHaveMoments(run, i, c);
  }

  /** sync_noexcept(n) with n positive that returned also saw a moment with no exception held or with no unfinished
      task, unless it saw the queue being destroyed: with an exception held it drains the queue. */
  lemma SyncNoexceptDrains(run: seq<State>, i: nat, c: nat)
    requires Run(run) && i < |run| && c < |run[i].syncs| && run[i].syncs[c].pc.SReturned?
    requires run[i].syncs[c].nothrow && run[i].syncs[c].allow > 0
    ensures run[i].syncs[c].sawDone || SawNoException(run, i, c) || SawAtMost(run, i, c, 0)
  {
    RunKeeps(run, i);
    assert SyncOk(run[i], c);
    FlagsHaveMoments(run, i, c);
  }

  /** sync(0) is a barrier: a task whose enqueue returned before the call began has run when the call returns. */
  lemma SyncIsABarrier(run: seq<State>, i: nat, k: nat, v: nat, c: nat)
    requires Run(run) && i <= k < |run| && !run[k].done
    requires 0 < v < |run[i].stage| && run[i].stage[v].Linked? && v < |run[i].callable| && run[i].callable[v]
    requires |run[i].syncs| <= c < |run[k].syncs| && run[k].syncs[c].pc.SReturned? && run[k].syncs[c].allow == 0
    ensures v in run[k].ran
  {
    hide Linkage, StepAt;
    SyncWaited(run, k, c);
    var j :| 0 <= j <= k && c < |run[j].syncs| && run[j].counted - run[j].finished <= 0;
    if j < i {
      RunGrows(run, j, i);
    }
    RunGrows(run, i, j);
    RunGrows(run, j, k);
    RunKeeps(run, i);
    RunKeeps(run, j);
    assert Published(run[i].stage[v]);
    var p :| 0 <= p < |run[i].order| && run[i].order[p] == v;
    assert run[j].order[p] == v && Published(run[j].stage[v]);
    DrainedMeansRan(run[j], v);
  }

  // ----- exceptions

  /** What a sync took is the first exception recorded since the clear before it. */
  lemma TakenIsFirst(run: seq<State>, i: nat, k: nat)
    requires Run(run) && i < |run| && k < |run[i].events| && run[i].events[k].Taken?
    ensures var taken := run[i].events[k];
      && taken.caller < |run[i].syncs| && !run[i].syncs[taken.caller].nothrow
      && (taken.exception.Some? ==> FirstSinceClear(run[i].events[..k], taken.exception.value))
      && (taken.exception.None? ==>
        forall q | 0 <= q < k && run[i].events[q].Recorded? :: exists t :: q < t < k && run[i].events[t].Taken?)
  {
    RunKeeps(run, i);
    var before := run[i].events[..k];
    LatchedIsFirst(before);
    if run[i].events[k].exception.None? {
      forall q | 0 <= q < k && run[i].events[q].Recorded?
        ensures exists t :: q < t < k && run[i].events[t].Taken?
      {
        assert before[q].Recorded?;
        var t :| q < t < |before| && before[t].Taken?;
        assert run[i].events[t].Taken?;
      }
    }
  }

  /** No exception is taken twice. */
  lemma TakenOnce(run: seq<State>, i: nat, k: nat, m: nat)
    requires Run(run) && i < |run| && k < m < |run[i].events|
    requires run[i].events[k].Taken? && run[i].events[m].Taken? && run[i].events[k].exception.Some?
    ensures run[i].events[m].exception != run[i].events[k].exception
  {
    TakenIsFirst(run, i, k);
    TakenIsFirst(run, i, m);
    if run[i].events[m].exception.Some? {
      var e := run[i].events[..m];
      assert e[k].Taken?;
    }
  }

  /** From a recorded exception up to the next clear, an exception is held. */
  lemma {:induction false} HeldUntilTaken(events: seq<Event>, k: nat, m: nat)
    requires k < m <= |events| && events[k].Recorded? && forall q | k < q < m :: !events[q].Taken?
    ensures Latched(events[..m]).Some?
  {
    assert events[..m][..m - 1] == events[..m - 1];
    if k + 1 < m {
      HeldUntilTaken(events, k, m - 1);
    }
  }

  /** After a recorded exception, either one is still held or the next clear took one. */
  lemma NextClearTakes(s: State, k: nat)
    requires EventsOk(s) && k < |s.events| && s.events[k].Recorded?
    ensures s.exception.Some? || exists t :: k < t < |s.events| && s.events[t].Taken? && s.events[t].exception.Some?
  {
    var m := k + 1;
    while m < |s.events| && !s.events[m].Taken?
      invariant k < m <= |s.events| && forall q | k < q < m :: !s.events[q].Taken?
    {
      m := m + 1;
    }
    HeldUntilTaken(s.events, k, m);
    assert s.events[..|s.events|] == s.events;
  }

  /** No failure is lost: once nothing is pending, the exception of every failed task was offered to the latch, and an
      exception is still held or a later sync took one. */
  lemma FailuresReachTheLatch(run: seq<State>, i: nat, f: nat) returns (k: nat)
    requires Run(run) && i < |run| && run[i].pending == 0 && f < |run[i].failures|
    ensures k < |run[i].events| && run[i].events[k] == Recorded(TaskFailed(run[i].failures[f]))
    ensures run[i].exception.Some?
            || exists t :: k < t < |run[i].events| && run[i].events[t].Taken? && run[i].events[t].exception.Some?
  {
    RunKeeps(run, i);
    var s := run[i];
    assert Offered(s.events, s.failures[f]);
    k :| 0 <= k < |s.events| && s.events[k] == Recorded(TaskFailed(s.failures[f]));
    NextClearTakes(s, k);
  }

  /** The worker offers no exception but those of tasks that failed. */
  lemma OnlyFailuresOffered(run: seq<State>, i: nat, k: nat)
    requires Run(run) && i < |run| && k < |run[i].events|
    requires run[i].events[k].Recorded? && run[i].events[k].source.TaskFailed?
    ensures run[i].events[k].source.node in run[i].failures
  {
    RunKeeps(run, i);
    assert EventOk(run[i].failures, run[i].events[k]);
  }

  ghost predicate TookAt(s: State, c: nat, k: nat) {
    k < |s.events| && c < |s.syncs| && s.syncs[c].pc.SReturned? && s.events[k] == Taken(c, s.syncs[c].pc.thrown)
  }

  lemma SyncPollStays(s: State, c: nat)
    requires c < |s.syncs| && SyncOk(s, c) && !s.syncs[c].nothrow
    requires !s.syncs[c].pc.STake? && !s.syncs[c].pc.SReturned?
    requires PollsPending(s.syncs[c].pc)
    ensures !SyncAct(s, c).syncs[c].pc.SReturned?
  {
  }

  lemma SyncLookStays(s: State, c: nat)
    requires c < |s.syncs| && SyncOk(s, c) && !s.syncs[c].nothrow
    requires !s.syncs[c].pc.STake? && !s.syncs[c].pc.SReturned?
    requires !PollsPending(s.syncs[c].pc)
    ensures !SyncAct(s, c).syncs[c].pc.SReturned?
  {
  }

  /** Only the last step of a throwing sync returns. */
  lemma SyncStaysInside(s: State, c: nat)
    requires c < |s.syncs| && SyncOk(s, c) && !s.syncs[c].nothrow
    requires !s.syncs[c].pc.STake? && !s.syncs[c].pc.SReturned?
    ensures !SyncAct(s, c).syncs[c].pc.SReturned?
  {
    if PollsPending(s.syncs[c].pc) {
      SyncPollStays(s, c);
    } else {
      SyncLookStays(s, c);
    }
  }

  lemma SyncReturnsOwn(s: State, c: nat)
    requires c < |s.syncs| && SyncOk(s, c) && !s.syncs[c].nothrow && SyncAct(s, c).syncs[c].pc.SReturned?
    ensures s.syncs[c] == SyncAct(s, c).syncs[c] || TookAt(SyncAct(s, c), c, |s.events|)
  {
    if !s.syncs[c].pc.STake? && !s.syncs[c].pc.SReturned? {
      SyncStaysInside(s, c);
    }
  }

  lemma SyncReturns(s: State, l: Label, c: nat)
    requires Callers(s) && Enabled(s, l)
    requires var t := Apply(s, l); c < |t.syncs| && !t.syncs[c].nothrow && t.syncs[c].pc.SReturned?
    ensures c < |s.syncs| && (s.syncs[c] == Apply(s, l).syncs[c] || TookAt(Apply(s, l), c, |s.events|))
  {
    if l.SyncStep? {
      assert SyncOk(s, l.i);
      SyncFrame(s, l.i);
      if l.i == c {
        SyncReturnsOwn(s, c);
      }
    } else if !l.PeekFails? {
      OthersKeepSyncs(s, l);
    }
  }

  lemma NextReturns(s: State, t: State, c: nat)
    requires Callers(s) && Next(s, t) && c < |t.syncs| && !t.syncs[c].nothrow && t.syncs[c].pc.SReturned?
    ensures c < |s.syncs| && (s.syncs[c] == t.syncs[c] || TookAt(t, c, |s.events|))
  {
    var l :| Enabled(s, l) && t == Apply(s, l);
    SyncReturns(s, l, c);
  }

  /** A throwing sync that returned threw what it took. */
  lemma {:induction false} ThrownWasTaken(run: seq<State>, i: nat, c: nat) returns (k: nat)
    requires Run(run) && i < |run| && c < |run[i].syncs|
    requires !run[i].syncs[c].nothrow && run[i].syncs[c].pc.SReturned?
    ensures TookAt(run[i], c, k)
  {
    assert i > 0;
    RunKeeps(run, i - 1);
    assert StepAt(run, i - 1);
    NextReturns(run[i - 1], run[i], c);
    if TookAt(run[i], c, |run[i - 1].events|) {
      k := |run[i - 1].events|;
    } else {
      k := ThrownWasTaken(run, i - 1, c);
      RunGrows(run, i - 1, i);
    }
  }

  /** Each rethrown exception is the first since the clear before it, no two calls rethrow the same exception, and
      sync_noexcept rethrows none. */
  lemma RethrownOnce(run: seq<State>, i: nat, c: nat, d: nat)
    requires Run(run) && i < |run| && c < |run[i].syncs| && d < |run[i].syncs| && c != d
    requires run[i].syncs[c].pc.SReturned? && run[i].syncs[c].pc.thrown.Some?
    requires run[i].syncs[d].pc.SReturned?
    ensures !run[i].syncs[c].nothrow
    ensures run[i].syncs[d].pc.thrown != run[i].syncs[c].pc.thrown
    ensures exists k: nat ::
      TookAt(run[i], c, k) && FirstSinceClear(run[i].events[..k], run[i].syncs[c].pc.thrown.value)
  {
    hide Next;
    RunKeeps(run, i);
    assert SyncOk(run[i], c) && SyncOk(run[i], d);
    var k := ThrownWasTaken(run, i, c);
    TakenIsFirst(run, i, k);
    if run[i].syncs[d].pc.thrown.Some? {
      var m := ThrownWasTaken(run, i, d);
      if k < m {
        TakenOnce(run, i, k, m);
      } else {
        TakenOnce(run, i, m, k);
      }
    }
  }
}
