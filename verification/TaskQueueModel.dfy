/**
 TaskQueue: any number of enqueuing threads, one worker, any number of sync, sync_noexcept and record_exception
 callers, and the destructor, each advancing by one shared access at a time. Nodes are numbered in allocation order
 (node 0 is the dummy), and a node's number also names the enqueue call that allocated it.
 */
module TaskQueueModel {
  import opened Options

  /** Where the enqueue call of a node stands: node allocated, counted in pending, published as tail, linked. */
  datatype Stage = Counting | Exchanging | Linking(prev: nat) | Linked

  datatype Holder = WorkerHolds | SyncHolds(i: nat) | RecorderHolds(i: nat) | DestroyerHolds

  datatype Worker =
    | WStart
    | WTop(curr: nat)
    | WLoad(curr: nat)
    | WRun(curr: nat, next: nat)
    | WDelete(curr: nat, next: nat, failed: bool)
    | WStoreHead(curr: nat, failed: bool)
    | WLock(curr: nat, failed: bool)
    | WCritical(curr: nat, failed: bool)
    | WSleepLock(curr: nat)
    | WSleepNext(curr: nat)
    | WSleepDone(curr: nat)
    | WExited(curr: nat)

  /** Program points of sync (throwing) and of sync_noexcept; phase two waits for an empty queue. When the mutex cannot
      be locked for the look at the latch (PeekFails), sync_noexcept goes on as if an exception were held. */
  datatype SyncPc =
    | SLock(second: bool)
    | SPending(second: bool)
    | SDone(second: bool)
    | SException
    | SExceptionPending
    | SExceptionDone
    | STake
    | SPeekLock
    | SPeek
    | SReturned(thrown: Option<nat>)

  /** One call, with what it observed: low and zero record a load of pending that saw at most allow, or zero; clear that
      sync_noexcept's look at the latch found no exception. */
  datatype Sync = Sync(allow: nat, nothrow: bool, pc: SyncPc, low: bool, zero: bool, sawDone: bool, clear: bool)

  datatype Recorder = RLock | RHolds | RFinished

  datatype Destroyer = DIdle | DLock | DSet | DJoin | DWalk(node: Option<nat>) | DFinished

  datatype Source = TaskFailed(node: nat) | CallbackFailed(i: nat)

  /** History of the exception latch: offered exceptions, and what each clear took (an index into the history). */
  datatype Event = Recorded(source: Source) | Taken(caller: nat, exception: Option<nat>)

  datatype State = State(
    stage: seq<Stage>, callable: seq<bool>,  // by node
    next: map<nat, nat>, head: nat, tail: nat, pending: int, done: bool,
    exception: Option<nat>, mutex: Option<Holder>,
    worker: Worker, syncs: seq<Sync>, recorders: seq<Recorder>, destroyer: Destroyer,
    // history
    order: seq<nat>, at: nat, freed: seq<nat>, ran: seq<nat>, counted: nat, finished: nat,
    failures: seq<nat>, events: seq<Event>)

  datatype Label =
    | NewEnqueue(hasTask: bool)
    | EnqueueStep(node: nat)
    | WorkerStep(fails: bool)
    | NewSync(allow: nat, nothrow: bool)
    | SyncStep(i: nat)
    | PeekFails(i: nat)
    | NewRecorder
    | RecorderStep(i: nat)
    | Destroy
    | DestroyStep

  const INITIAL: State :=
    State([Linked], [false], map[], 0, 0, 0, false, None, None, WStart, [], [], DIdle, [0], 0, [], [], 0, 0, [], [])

  function EnqueueAct(s: State, v: nat): State
    requires v < |s.stage|
  {
    match s.stage[v]
    case Counting => s.(pending := s.pending + 1, counted := s.counted + 1, stage := s.stage[v := Exchanging])
    case Exchanging => s.(tail := v, order := s.order + [v], stage := s.stage[v := Linking(s.tail)])
    case Linking(prev) => s.(next := s.next[prev := v], stage := s.stage[v := Linked])
    case Linked => s
  }

  /** Keep the exception if none is held. */
  function Offer(s: State, source: Source): State {
    s.(exception := if s.exception.None? then Some(|s.events|) else s.exception,
       events := s.events + [Recorded(source)])
  }

  function WorkerAct(s: State, fails: bool): State
    requires s.worker.WRun? ==> s.worker.next < |s.callable|
  {
    match s.worker
    case WStart => s.(worker := WTop(s.head))
    case WTop(curr) => s.(worker := if s.done then WExited(curr) else WLoad(curr))
    case WLoad(curr) => s.(worker := if curr in s.next then WRun(curr, s.next[curr]) else WSleepLock(curr))
    case WRun(curr, next) =>
      if s.callable[next] then
        s.(worker := WDelete(curr, next, fails), ran := s.ran + [next],
           failures := if fails then s.failures + [next] else s.failures)
      else s.(worker := WDelete(curr, next, false))
    case WDelete(curr, next, failed) =>
      s.(worker := WStoreHead(next, failed), freed := s.freed + [curr], at := s.at + 1)
    case WStoreHead(curr, failed) => s.(worker := WLock(curr, failed), head := curr)
    case WLock(curr, failed) => s.(worker := WCritical(curr, failed), mutex := Some(WorkerHolds))
    case WCritical(curr, failed) =>
      var offered := if failed then Offer(s, TaskFailed(curr)) else s;
      offered.(worker := WTop(curr), pending := s.pending - 1, finished := s.finished + 1, mutex := None)
    case WSleepLock(curr) => s.(worker := WSleepNext(curr), mutex := Some(WorkerHolds))
    case WSleepNext(curr) =>
      if curr in s.next then s.(worker := WTop(curr), mutex := None) else s.(worker := WSleepDone(curr))
    case WSleepDone(curr) => s.(worker := if s.done then WTop(curr) else WSleepLock(curr), mutex := None)
    case WExited(curr) => s
  }

  function Put(s: State, i: nat, y: Sync): State
    requires i < |s.syncs|
  {
    s.(syncs := s.syncs[i := y])
  }

  /** The call after a load of pending. */
  function Saw(s: State, y: Sync): Sync {
    y.(low := y.low || s.pending <= y.allow, zero := y.zero || s.pending <= 0)
  }

  /** The predicate of a wait held. sync goes on under the lock; sync_noexcept unlocks and, after its first wait with a
      positive allowance, looks for a held exception. */
  function Pass(s: State, i: nat, y: Sync, second: bool): State
    requires i < |s.syncs|
  {
    if !y.nothrow then Put(s, i, y.(pc := if second then STake else SException))
    else Put(s, i, y.(pc := if !second && y.allow > 0 then SPeekLock else SReturned(None))).(mutex := None)
  }

  function SyncAct(s: State, i: nat): State
    requires i < |s.syncs|
  {
    var y := s.syncs[i];
    match y.pc
    case SLock(second) => Put(s, i, y.(pc := SPending(second))).(mutex := Some(SyncHolds(i)))
    case SPending(second) =>
      if s.pending <= (if second then 0 else y.allow) then Pass(s, i, Saw(s, y), second)
      else Put(s, i, Saw(s, y).(pc := SDone(second)))
    case SDone(second) =>
      if s.done then Pass(s, i, y.(sawDone := true), second)
      else Put(s, i, y.(pc := SLock(second))).(mutex := None)
    case SException => Put(s, i, y.(pc := if s.exception.Some? then SExceptionPending else STake))
    case SExceptionPending =>
      Put(s, i, Saw(s, y).(pc := if s.pending > 0 then SExceptionDone else STake))
    case SExceptionDone =>
      Put(s, i, if s.done then y.(sawDone := true, pc := STake) else y.(pc := SPending(true)))
    case STake =>
      Put(s, i, y.(pc := SReturned(s.exception)))
        .(exception := None, mutex := None, events := s.events + [Taken(i, s.exception)])
    case SPeekLock => Put(s, i, y.(pc := SPeek)).(mutex := Some(SyncHolds(i)))
    case SPeek =>
      Put(s, i, y.(pc := if s.exception.Some? then SLock(true) else SReturned(None), clear := s.exception.None?))
        .(mutex := None)
    case SReturned(_) => s
  }

  function RecorderAct(s: State, i: nat): State
    requires i < |s.recorders|
  {
    match s.recorders[i]
    case RLock => s.(recorders := s.recorders[i := RHolds], mutex := Some(RecorderHolds(i)))
    case RHolds => Offer(s, CallbackFailed(i)).(recorders := s.recorders[i := RFinished], mutex := None)
    case RFinished => s
  }

  function DestroyAct(s: State): State {
    match s.destroyer
    case DIdle => s
    case DLock => s.(destroyer := DSet, mutex := Some(DestroyerHolds))
    case DSet => s.(destroyer := DJoin, done := true, mutex := None)
    case DJoin => s.(destroyer := DWalk(Some(s.head)))
    case DWalk(Some(node)) =>
      s.(destroyer := DWalk(if node in s.next then Some(s.next[node]) else None), freed := s.freed + [node])
    case DWalk(None) => s.(destroyer := DFinished)
    case DFinished => s
  }

  /** The step needs the mutex and somebody holds it. */
  predicate Blocked(s: State, l: Label) {
    s.mutex.Some?
    && match l
       case WorkerStep(_) => s.worker.WLock? || s.worker.WSleepLock?
       case SyncStep(i) => i < |s.syncs| && (s.syncs[i].pc.SLock? || s.syncs[i].pc.SPeekLock?)
       case RecorderStep(i) => i < |s.recorders| && s.recorders[i].RLock?
       case DestroyStep => s.destroyer.DLock?
       case _ => false
  }

  /** No enqueue call is between its entry and its return. */
  ghost predicate NoneInFlight(s: State) {
    forall v | 0 <= v < |s.stage| :: s.stage[v].Linked?
  }

  ghost predicate Enabled(s: State, l: Label) {
    !Blocked(s, l)
    && match l
       case NewEnqueue(_) => s.destroyer.DIdle?
       case EnqueueStep(v) => v < |s.stage|
       case WorkerStep(_) => s.worker.WRun? ==> s.worker.next < |s.callable|
       case NewSync(_, _) => true
       case SyncStep(i) => i < |s.syncs|
       case PeekFails(i) => i < |s.syncs| && s.syncs[i].pc.SPeekLock?
       case NewRecorder => true
       case RecorderStep(i) => i < |s.recorders|
       case Destroy => s.destroyer.DIdle? && NoneInFlight(s)
       case DestroyStep => s.destroyer.DJoin? ==> s.worker.WExited?
  }

  function Apply(s: State, l: Label): State
    requires Enabled(s, l)
  {
    match l
    case NewEnqueue(hasTask) => s.(stage := s.stage + [Counting], callable := s.callable + [hasTask])
    case EnqueueStep(v) => EnqueueAct(s, v)
    case WorkerStep(fails) => WorkerAct(s, fails)
    case NewSync(allow, nothrow) =>
      s.(syncs := s.syncs + [Sync(allow, nothrow, SLock(false), false, false, false, false)])
    case SyncStep(i) => SyncAct(s, i)
    case PeekFails(i) => Put(s, i, s.syncs[i].(pc := SLock(true)))
    case NewRecorder => s.(recorders := s.recorders + [RLock])
    case RecorderStep(i) => RecorderAct(s, i)
    case Destroy => s.(destroyer := DLock)
    case DestroyStep => DestroyAct(s)
  }

  ghost predicate Next(s: State, t: State) {
    exists l :: Enabled(s, l) && t == Apply(s, l)
  }

  ghost predicate StepAt(run: seq<State>, i: nat)
    requires i + 1 < |run|
  {
    Next(run[i], run[i + 1])
  }

  ghost predicate Run(run: seq<State>) {
    && |run| > 0 && run[0] == INITIAL
    && forall i | 0 <= i < |run| - 1 :: StepAt(run, i)
  }
}
