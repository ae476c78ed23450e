/**
 InNumaPool: jobs handed to a fixed set of threads by fetch-and-add on curr_, with one WORKING/WAITING flag per thread
 reused by every job. The calling thread is thread 0; every step is one access to shared memory.
 */
module NumaPool {

  /** Program points of process_tasks. */
  datatype Task =
    | Outside | Init | Load | Rem(seen: int) | Fetch | Check(id: int) | Compute(id: int) | Final | Store | Faulted

  /** Program points of do_work_stealing_job on the calling thread, with process_tasks(0) at Inside. */
  datatype Caller = Idle | SetFuncs | SetCount | SetCurr | SetEnd | Raise(i: nat) | Inside | Wait(i: nat)

  /** One call of a job's compute function. */
  datatype Call = Call(job: nat, id: int, thread: nat)

  /** A finished job: its calls, and the threads that called its init and finalize functions. */
  datatype Job = Job(tasks: int, workers: int, calls: seq<Call>, begun: seq<nat>, ended: seq<nat>)

  datatype State = State(
    caller: Caller, tasks: int, restricted: int,     // arguments of the running job
    func: nat, workerCount: int, curr: int, end: int, // shared fields
    working: seq<bool>, pcs: seq<Task>,
    // history: finished jobs; for the running job its calls, the threads that called init and finalize, and which
    // thread got which value of curr
    jobs: seq<Job>, calls: seq<Call>, begun: seq<nat>, ended: seq<nat>, claims: seq<nat>)

  datatype Label = NewJob(tasks: int, restricted: int) | CallerStep | WorkerEnter(t: nat) | TaskStep(t: nat)

  function Min(a: int, b: int): int {
    if b < a then b else a
  }

  ghost predicate Initial(s: State) {
    && s.caller == Idle && s.jobs == [] && s.calls == [] && s.begun == [] && s.ended == []
    && |s.working| == |s.pcs| && |s.pcs| > 0
    && forall t | 0 <= t < |s.pcs| :: s.pcs[t] == Outside && !s.working[t]
  }

  function CallerAct(s: State): State
    requires |s.pcs| > 0
  {
    match s.caller
    case Idle => s
    case SetFuncs => s.(func := |s.jobs|, caller := SetCount)
    case SetCount => s.(workerCount := Min(s.restricted, s.tasks), caller := SetCurr)
    case SetCurr => s.(curr := 0, claims := [], caller := SetEnd)
    case SetEnd => s.(end := s.tasks, caller := Raise(0))
    case Raise(i) =>
      if i < s.workerCount && i < |s.working| then s.(working := s.working[i := true], caller := Raise(i + 1))
      else s.(caller := Inside, pcs := s.pcs[0 := Init])
    case Inside => if s.pcs[0] == Outside then s.(caller := Wait(0)) else s
    case Wait(i) =>
      if i < s.workerCount then
        if i < |s.working| && s.working[i] then s else s.(caller := Wait(i + 1))
      else s.(caller := Idle, jobs := s.jobs + [Job(s.tasks, s.workerCount, s.calls, s.begun, s.ended)],
              calls := [], begun := [], ended := [])
  }

  function TaskAct(s: State, t: nat): State
    requires t < |s.pcs| && |s.working| == |s.pcs|
  {
    match s.pcs[t]
    case Outside => s
    case Init => s.(pcs := s.pcs[t := Load], begun := s.begun + [t])
    case Load => s.(pcs := s.pcs[t := Rem(s.curr)])
    case Rem(seen) =>
      if s.end - seen <= 0 then s.(pcs := s.pcs[t := Final])
      else s.(pcs := s.pcs[t := if s.workerCount == 0 then Faulted else Fetch])
    case Fetch => s.(pcs := s.pcs[t := Check(s.curr)], curr := s.curr + 1, claims := s.claims + [t])
    case Check(id) => s.(pcs := s.pcs[t := if id >= s.end then Final else Compute(id)])
    case Compute(id) => s.(pcs := s.pcs[t := Load], calls := s.calls + [Call(s.func, id, t)])
    case Final => s.(pcs := s.pcs[t := Store], ended := s.ended + [t])
    case Store => s.(pcs := s.pcs[t := Outside], working := s.working[t := false])
    case Faulted => s
  }

  /** A job asks for no more workers than there are threads; a worker thread enters when it sees its flag. */
  ghost predicate Enabled(s: State, l: Label) {
    match l
    case NewJob(tasks, restricted) => s.caller == Idle && Min(restricted, tasks) <= |s.pcs|
    case CallerStep => |s.pcs| > 0
    case WorkerEnter(t) => 0 < t < |s.pcs| && |s.working| == |s.pcs| && s.working[t] && s.pcs[t] == Outside
    case TaskStep(t) => t < |s.pcs| && |s.working| == |s.pcs|
  }

  function Apply(s: State, l: Label): State
    requires Enabled(s, l)
  {
    match l
    case NewJob(tasks, restricted) => s.(caller := SetFuncs, tasks := tasks, restricted := restricted)
    case CallerStep => CallerAct(s)
    case WorkerEnter(t) => s.(pcs := s.pcs[t := Init])
    case TaskStep(t) => TaskAct(s, t)
  }

  ghost predicate Next(s: State, t: State) {
    exists l :: Enabled(s, l) && t == Apply(s, l)
  }

  ghost predicate StepAt(run: seq<State>, i: nat)
    requires i + 1 < |run|
  {
    Next(run[i], run[i + 1])
  }

  ghost predicate Run(run: seq<State>) {
    && |run| > 0 && Initial(run[0])
    && forall i | 0 <= i < |run| - 1 :: StepAt(run, i)
  }

  // ----- invariant

  /** The job's fields are being written. */
  predicate Writing(c: Caller) {
    c == Idle || c == SetFuncs || c == SetCount || c == SetCurr || c == SetEnd
  }

  ghost predicate Quiet(s: State) {
    |s.working| == |s.pcs| && forall t | 0 <= t < |s.pcs| :: s.pcs[t] == Outside && !s.working[t]
  }

  /** The shared fields are those of the running job. */
  ghost predicate Fields(s: State) {
    && s.func == |s.jobs| && s.workerCount == Min(s.restricted, s.tasks) && s.end == s.tasks
    && 0 <= s.curr == |s.claims| && (s.workerCount == 0 ==> s.claims == [])
  }

  function Max(a: int, b: int): int {
    if a < b then b else a
  }

  /** Flags: only threads below worker_count work; the caller's flag falls with its process_tasks, and a worker inside
      has its flag up. */
  ghost predicate Flags(s: State) {
    && s.workerCount <= |s.pcs| && |s.pcs| > 0 && |s.working| == |s.pcs|
    && (forall t | 0 < t < |s.pcs| && s.pcs[t] != Outside :: s.working[t])
    && (forall t | 0 <= t < |s.pcs| && s.working[t] :: t < s.workerCount)
    && match s.caller
       case Raise(i) =>
         s.pcs[0] == Outside && (forall t | i <= t < |s.pcs| :: !s.working[t]) && i <= Max(s.workerCount, 0)
       case Inside => s.pcs[0] == Outside ==> !s.working[0] && s.end <= s.curr
       case Wait(i) => s.pcs[0] == Outside && !s.working[0] && (forall t | 0 <= t < i && t < |s.pcs| :: !s.working[t])
       case _ => true
  }

  predicate Holds(pc: Task, k: int) {
    pc == Check(k) || pc == Compute(k)
  }

  /** The thread's own view: it owns what it holds, and it has left the loop only after seeing curr reach end. */
  ghost predicate ThreadOk(s: State, t: nat)
    requires t < |s.pcs|
  {
    match s.pcs[t]
    case Check(id) => 0 <= id < |s.claims| && s.claims[id] == t
    case Compute(id) => 0 <= id < |s.claims| && s.claims[id] == t && id < s.end
    case Rem(seen) => 0 <= seen <= s.curr
    case Fetch => s.workerCount != 0
    case Final => s.end <= s.curr
    case Store => s.end <= s.curr
    case Faulted => s.workerCount == 0 && s.end > 0
    case _ => true
  }

  ghost predicate Threads(s: State) {
    forall t | 0 <= t < |s.pcs| :: ThreadOk(s, t)
  }

  /** Task k has been computed, by the thread that claimed it. */
  ghost predicate Computed(calls: seq<Call>, k: int) {
    exists c :: 0 <= c < |calls| && calls[c].id == k
  }

  ghost predicate CallOk(s: State, c: Call) {
    && c.job == |s.jobs| && 0 <= c.id < |s.claims| && c.id < s.end && c.thread == s.claims[c.id]
    && c.thread < |s.pcs| && !Holds(s.pcs[c.thread], c.id)
  }

  ghost predicate ClaimOk(s: State, k: nat)
    requires k < |s.claims|
  {
    && s.claims[k] < |s.pcs|
    && (k < s.end ==> Computed(s.calls, k) || Holds(s.pcs[s.claims[k]], k))
  }

  /** Every claimed task is computed or in the hands of its owner, never both, and computed once. */
  ghost predicate Progress(s: State) {
    && (forall c | 0 <= c < |s.calls| :: CallOk(s, s.calls[c]))
    && (forall c, d | 0 <= c < d < |s.calls| :: s.calls[c].id != s.calls[d].id)
    && (forall k | 0 <= k < |s.claims| :: ClaimOk(s, k))
  }

  /** The thread has not claimed yet in this job. */
  ghost predicate Fresh(s: State, t: nat)
    requires t < |s.pcs| && |s.working| == |s.pcs|
  {
    s.pcs[t] == Init || (s.pcs[t] == Outside && (s.working[t] || (s.caller.Raise? && (t == 0 || s.caller.i <= t))))
  }

  /** The thread will not claim again in this job. */
  ghost predicate Through(s: State, t: nat)
    requires t < |s.pcs| && |s.working| == |s.pcs|
  {
    && !Fresh(s, t) && s.pcs[t] != Fetch && (s.pcs[t].Rem? ==> s.end <= s.pcs[t].seen)
  }

  ghost predicate Latecomer(s: State, k: nat)
    requires k < |s.claims| && |s.working| == |s.pcs|
  {
    && s.claims[k] < Max(s.workerCount, 1) && s.claims[k] < |s.pcs|
    && !Fresh(s, s.claims[k])
    && (s.end - 1 <= k ==> Through(s, s.claims[k]))
  }

  /** Whoever got the last task or a value past it does not come back, so those claims are of different threads. */
  ghost predicate Overshoot(s: State) {
    && |s.working| == |s.pcs|
    && (forall k | 0 <= k < |s.claims| :: Latecomer(s, k))
    && (forall j, k | s.end - 1 <= j < k < |s.claims| && 0 <= j :: s.claims[j] != s.claims[k])
  }

  /** The thread takes part in the running job: the caller, and the workers below worker_count. */
  predicate TakesPart(workers: int, t: nat) {
    t < Max(workers, 1)
  }

  /** The thread's process_tasks is over for this job. */
  ghost predicate Over(s: State, t: nat)
    requires t < |s.pcs| && |s.working| == |s.pcs|
  {
    s.pcs[t] == Outside && !Fresh(s, t) && TakesPart(s.workerCount, t)
  }

  ghost predicate PartOk(s: State, t: nat)
    requires t < |s.pcs| && |s.working| == |s.pcs|
  {
    && (s.pcs[t] != Outside ==> TakesPart(s.workerCount, t))
    && (t in s.begun <==> (s.pcs[t] != Outside && s.pcs[t] != Init) || Over(s, t))
    && (t in s.ended <==> s.pcs[t] == Store || Over(s, t))
  }

  ghost predicate Apart(xs: seq<nat>) {
    forall i, j | 0 <= i < j < |xs| :: xs[i] != xs[j]
  }

  /** Threads call init when they enter and finalize when they leave, once each. */
  ghost predicate Parts(s: State) {
    && |s.working| == |s.pcs| && Apart(s.begun) && Apart(s.ended)
    && (forall t | 0 <= t < |s.pcs| :: PartOk(s, t))
    && (forall i | 0 <= i < |s.begun| :: s.begun[i] < |s.pcs|)
    && (forall i | 0 <= i < |s.ended| :: s.ended[i] < |s.pcs|)
  }

  /** Exactly the threads that take part, each once. */
  ghost predicate AllOnce(xs: seq<nat>, workers: int) {
    Apart(xs) && forall t: nat :: t in xs <==> TakesPart(workers, t)
  }

  /** Each task of the job was computed exactly once, by the job's own function. */
  ghost predicate ExactlyOnce(job: nat, j: Job) {
    && (forall c | 0 <= c < |j.calls| :: j.calls[c].job == job && 0 <= j.calls[c].id < j.tasks)
    && (forall c, d | 0 <= c < d < |j.calls| :: j.calls[c].id != j.calls[d].id)
    && (forall k | 0 <= k < j.tasks :: Computed(j.calls, k))
  }

  /** Init and finalize were called once by every thread that takes part, and by no other. */
  ghost predicate Framed(j: Job) {
    AllOnce(j.begun, j.workers) && AllOnce(j.ended, j.workers)
  }

  ghost predicate Finished(s: State) {
    forall j | 0 <= j < |s.jobs| :: ExactlyOnce(j, s.jobs[j]) && Framed(s.jobs[j])
  }

  ghost predicate Written(s: State) {
    && (s.caller == SetCount ==> s.func == |s.jobs|)
    && (s.caller == SetCurr ==> s.func == |s.jobs| && s.workerCount == Min(s.restricted, s.tasks))
    && (s.caller == SetEnd ==> s.func == |s.jobs| && s.workerCount == Min(s.restricted, s.tasks)
                               && s.curr == 0 && s.claims == [])
  }

  ghost predicate Inv(s: State) {
    && |s.pcs| > 0 && Finished(s)
    && (s.caller != Idle ==> Min(s.restricted, s.tasks) <= |s.pcs|)
    && (s.caller.Wait? ==> s.end <= s.curr)
    && if Writing(s.caller) then Quiet(s) && Written(s) && s.calls == [] && s.begun == [] && s.ended == []
       else Fields(s) && Flags(s) && Threads(s) && Progress(s) && Overshoot(s) && Parts(s)
  }

  // ----- the caller's steps

  lemma NewJobKeeps(s: State, tasks: int, restricted: int)
    requires Inv(s) && Enabled(s, NewJob(tasks, restricted))
    ensures Inv(Apply(s, NewJob(tasks, restricted)))
  {
  }

  lemma WritingKeeps(s: State)
    requires Inv(s) && Writing(s.caller)
    ensures Inv(CallerAct(s))
  {
  }

  /** The steps of the caller between writing the fields and returning, but for the last. */
  predicate Waits(s: State) {
    s.caller.Wait? && s.caller.i < s.workerCount
  }

  lemma CallerFlags(s: State)
    requires Fields(s) && Flags(s) && (s.caller.Raise? || s.caller.Inside? || Waits(s))
    ensures Fields(CallerAct(s)) && Flags(CallerAct(s))
    ensures CallerAct(s).caller.Wait? ==> s.caller.Wait? || s.end <= s.curr
  {
  }

  lemma CallerThreads(s: State)
    requires Fields(s) && Flags(s) && Threads(s) && Progress(s) && (s.caller.Raise? || s.caller.Inside? || Waits(s))
    ensures Threads(CallerAct(s)) && Progress(CallerAct(s))
  {
    var t := CallerAct(s);
    forall u | 0 <= u < |t.pcs| ensures ThreadOk(t, u) {
      assert ThreadOk(s, u);
    }
    forall c | 0 <= c < |t.calls| ensures CallOk(t, t.calls[c]) {
      assert CallOk(s, s.calls[c]);
    }
    forall k | 0 <= k < |t.claims| ensures ClaimOk(t, k) {
      assert ClaimOk(s, k);
    }
  }

  lemma CallerOvershoot(s: State)
    requires Fields(s) && Flags(s) && Overshoot(s) && (s.caller.Raise? || s.caller.Inside? || Waits(s))
    ensures Overshoot(CallerAct(s))
  {
    var t := CallerAct(s);
    forall k | 0 <= k < |t.claims| ensures Latecomer(t, k) {
      assert Latecomer(s, k);
    }
  }

  lemma CallerParts(s: State)
    requires Fields(s) && Flags(s) && Parts(s) && (s.caller.Raise? || s.caller.Inside? || Waits(s))
    ensures Parts(CallerAct(s))
  {
    var t := CallerAct(s);
    forall u | 0 <= u < |t.pcs| ensures PartOk(t, u) {
      assert PartOk(s, u);
    }
  }

  /** When the caller stops waiting, every thread that takes part is over. */
  lemma AllOver(s: State)
    requires Fields(s) && Flags(s) && Parts(s) && s.caller.Wait? && s.caller.i >= s.workerCount
    ensures Framed(Job(s.tasks, s.workerCount, s.calls, s.begun, s.ended))
  {
    forall t: nat ensures t in s.begun <==> TakesPart(s.workerCount, t) {
      if t < |s.pcs| {
        assert PartOk(s, t);
      }
    }
    forall t: nat ensures t in s.ended <==> TakesPart(s.workerCount, t) {
      if t < |s.pcs| {
        assert PartOk(s, t);
      }
    }
  }

  lemma Returns(s: State)
    requires Inv(s) && s.caller.Wait? && s.caller.i >= s.workerCount
    ensures Inv(CallerAct(s))
  {
    var t := CallerAct(s);
    assert Quiet(s);
    AllOver(s);
    assert ExactlyOnce(|s.jobs|, Job(s.tasks, s.workerCount, s.calls, s.begun, s.ended)) by {
      forall c | 0 <= c < |s.calls| ensures s.calls[c].job == |s.jobs| && 0 <= s.calls[c].id < s.tasks {
        assert CallOk(s, s.calls[c]);
      }
      forall k | 0 <= k < s.tasks ensures Computed(s.calls, k) {
        assert ClaimOk(s, k);
      }
    }
  }

  lemma CallerKeeps(s: State)
    requires Inv(s)
    ensures Inv(CallerAct(s))
  {
    if Writing(s.caller) {
      WritingKeeps(s);
    } else if s.caller.Wait? && s.caller.i >= s.workerCount {
      Returns(s);
    } else {
      CallerFlags(s);
      CallerThreads(s);
      CallerOvershoot(s);
      CallerParts(s);
    }
  }

  // ----- process_tasks

  lemma EnterParts(s: State, t: nat)
    requires Flags(s) && Parts(s) && Enabled(s, WorkerEnter(t))
    ensures Parts(Apply(s, WorkerEnter(t)))
  {
    var s' := Apply(s, WorkerEnter(t));
    forall u | 0 <= u < |s'.pcs| ensures PartOk(s', u) {
      assert PartOk(s, u);
    }
  }

  lemma EnterKeeps(s: State, t: nat)
    requires Inv(s) && Enabled(s, WorkerEnter(t))
    ensures Inv(Apply(s, WorkerEnter(t)))
  {
    var s' := Apply(s, WorkerEnter(t));
    forall u | 0 <= u < |s'.pcs| ensures ThreadOk(s', u) {
      assert ThreadOk(s, u);
    }
    forall c | 0 <= c < |s'.calls| ensures CallOk(s', s'.calls[c]) {
      assert CallOk(s, s.calls[c]);
    }
    forall k | 0 <= k < |s'.claims| ensures ClaimOk(s', k) && Latecomer(s', k) {
      assert ClaimOk(s, k) && Latecomer(s, k);
    }
    EnterParts(s, t);
  }

  lemma TaskFlags(s: State, t: nat)
    requires Fields(s) && Flags(s) && t < |s.pcs| && s.pcs[t] != Outside && !Writing(s.caller) && ThreadOk(s, t)
    ensures Fields(TaskAct(s, t)) && Flags(TaskAct(s, t))
  {
  }

  lemma TaskThreads(s: State, t: nat)
    requires Fields(s) && Flags(s) && Threads(s) && t < |s.pcs| && s.pcs[t] != Outside
    ensures Threads(TaskAct(s, t))
  {
    var s' := TaskAct(s, t);
    forall u | 0 <= u < |s'.pcs| ensures ThreadOk(s', u) {
      assert ThreadOk(s, u);
    }
  }

  lemma TaskProgress(s: State, t: nat)
    requires Fields(s) && Flags(s) && Threads(s) && Progress(s) && t < |s.pcs| && !s.pcs[t].Compute?
    ensures Progress(TaskAct(s, t))
  {
    var s' := TaskAct(s, t);
    assert ThreadOk(s, t);
    forall c | 0 <= c < |s'.calls| ensures CallOk(s', s'.calls[c]) {
      assert CallOk(s, s.calls[c]);
    }
    forall k | 0 <= k < |s'.claims| ensures ClaimOk(s', k) {
      if k < |s.claims| {
        assert ClaimOk(s, k);
      }
    }
  }

  lemma ComputeProgress(s: State, t: nat)
    requires Fields(s) && Flags(s) && Threads(s) && Progress(s) && t < |s.pcs| && s.pcs[t].Compute?
    ensures Progress(TaskAct(s, t))
  {
    var s' := TaskAct(s, t);
    var id := s.pcs[t].id;
    assert ThreadOk(s, t);
    forall c | 0 <= c < |s.calls| ensures CallOk(s', s.calls[c]) && s.calls[c].id != id {
      assert CallOk(s, s.calls[c]);
    }
    assert s'.calls[|s.calls|].id == id;
    forall k | 0 <= k < |s'.claims| ensures ClaimOk(s', k) {
      assert ClaimOk(s, k);
      if Computed(s.calls, k) {
        var c :| 0 <= c < |s.calls| && s.calls[c].id == k;
        assert s'.calls[c].id == k;
      }
    }
  }

  lemma FetchOvershoot(s: State, t: nat)
    requires Fields(s) && Flags(s) && Threads(s) && Overshoot(s) && t < |s.pcs| && s.pcs[t].Fetch?
    requires !Writing(s.caller)
    ensures Overshoot(TaskAct(s, t))
  {
    var s' := TaskAct(s, t);
    assert ThreadOk(s, t);
    forall k | 0 <= k < |s'.claims| ensures Latecomer(s', k) {
      if k < |s.claims| {
        assert Latecomer(s, k);
      }
    }
    forall j | 0 <= j < |s.claims| && s.end - 1 <= j ensures s.claims[j] != t {
      assert Latecomer(s, j);
    }
  }

  lemma TaskOvershoot(s: State, t: nat)
    requires Fields(s) && Flags(s) && Threads(s) && Overshoot(s) && t < |s.pcs| && s.pcs[t] != Outside
    requires !Writing(s.caller) && !s.pcs[t].Fetch?
    ensures Overshoot(TaskAct(s, t))
  {
    var s' := TaskAct(s, t);
    assert ThreadOk(s, t);
    forall k | 0 <= k < |s'.claims| ensures Latecomer(s', k) {
      assert Latecomer(s, k);
    }
  }

  /** Thread t moved to pc; begun and ended are as the move left them. */
  lemma MovedParts(s: State, s': State, t: nat)
    requires Parts(s) && t < |s.pcs| && s.pcs[t] != Outside && PartOk(s, t)
    requires s'.caller == s.caller && s'.workerCount == s.workerCount && |s'.pcs| == |s.pcs| == |s'.working|
    requires s'.pcs == s.pcs[t := s'.pcs[t]] && s'.working == s.working[t := s'.working[t]]
    requires s'.begun == (if s.pcs[t] == Init then s.begun + [t] else s.begun)
    requires s'.ended == (if s.pcs[t] == Final then s.ended + [t] else s.ended)
    requires |s'.working| == |s'.pcs| && PartOk(s', t)
    ensures Parts(s')
  {
    forall u | 0 <= u < |s'.pcs| ensures PartOk(s', u) {
      assert PartOk(s, u);
    }
  }

  lemma TaskParts(s: State, t: nat)
    requires Flags(s) && Parts(s) && t < |s.pcs| && s.pcs[t] != Outside && !Writing(s.caller)
    ensures Parts(TaskAct(s, t))
  {
    var s' := TaskAct(s, t);
    assert PartOk(s, t);
    if s.pcs[t] == Init {
      assert s'.begun[|s.begun|] == t;
    }
    if s.pcs[t] == Final {
      assert s'.ended[|s.ended|] == t;
    }
    MovedParts(s, s', t);
  }

  lemma TaskKeeps(s: State, t: nat)
    requires Inv(s) && Enabled(s, TaskStep(t))
    ensures Inv(TaskAct(s, t))
  {
    if s.pcs[t] != Outside {
      assert ThreadOk(s, t);
      TaskFlags(s, t);
      TaskThreads(s, t);
      if s.pcs[t].Compute? {
        ComputeProgress(s, t);
      } else {
        TaskProgress(s, t);
      }
      if s.pcs[t].Fetch? {
        FetchOvershoot(s, t);
      } else {
        TaskOvershoot(s, t);
      }
      TaskParts(s, t);
    }
  }

  lemma NextKeeps(s: State, t: State)
    requires Inv(s) && Next(s, t)
    ensures Inv(t)
  {
    var l :| Enabled(s, l) && t == Apply(s, l);
    match l
    case NewJob(tasks, restricted) => NewJobKeeps(s, tasks, restricted);
    case CallerStep => CallerKeeps(s);
    case WorkerEnter(u) => EnterKeeps(s, u);
    case TaskStep(u) => TaskKeeps(s, u);
  }

  lemma {:induction false} RunKeeps(run: seq<State>, i: nat)
    requires Run(run) && i < |run|
    ensures Inv(run[i])
  {
    if i > 0 {
      RunKeeps(run, i - 1);
      assert StepAt(run, i - 1);
      NextKeeps(run[i - 1], run[i]);
    }
  }

  // ----- theorems over whole runs

  /** When do_work_stealing_job returns, every task of the job was computed exactly once, and so it stays. */
  lemma ReturnsAfterAll(run: seq<State>, i: nat)
    requires Run(run) && i + 1 < |run| && run[i].caller.Wait? && run[i + 1].caller == Idle
    ensures var s := run[i]; run[i + 1].jobs == s.jobs + [Job(s.tasks, s.workerCount, s.calls, s.begun, s.ended)]
    ensures Finished(run[i + 1])
  {
    assert StepAt(run, i);
    RunKeeps(run, i + 1);
  }

  function Ids(calls: seq<Call>): seq<int> {
    seq(|calls|, c requires 0 <= c < |calls| => calls[c].id)
  }

  /** A thread computes a task only between its init and its finalize. */
  lemma ComputesInside(run: seq<State>, i: nat, t: nat)
    requires Run(run) && i < |run| && t < |run[i].pcs| && run[i].pcs[t].Compute?
    ensures t in run[i].begun && t !in run[i].ended
  {
    RunKeeps(run, i);
    assert PartOk(run[i], t);
  }

  lemma CountOne(ids: seq<int>, c: nat)
    requires c < |ids| && forall i | 0 <= i < |ids| && i != c :: ids[i] != ids[c]
    ensures multiset(ids)[ids[c]] == 1
  {
    var before, after := ids[..c], ids[c + 1..];
    assert ids == before + [ids[c]] + after;
    assert ids[c] !in before && ids[c] !in after;
  }

  /** Exactly once as a multiset: the ids of the calls are the numbers below tasks. */
  lemma ExactlyOnceCounts(job: nat, j: Job, k: int)
    requires ExactlyOnce(job, j)
    ensures multiset(Ids(j.calls))[k] == if 0 <= k < j.tasks then 1 else 0
  {
    var ids := Ids(j.calls);
    if 0 <= k < j.tasks {
      assert Computed(j.calls, k);
      var c :| 0 <= c < |j.calls| && j.calls[c].id == k;
      CountOne(ids, c);
    } else {
      assert k !in ids;
    }
  }

  /** While the job's fields are written no thread is inside process_tasks or allowed to enter it; whoever is inside
      reads the fields of the running job. */
  lemma FieldsAreStable(run: seq<State>, i: nat, t: nat)
    requires Run(run) && i < |run| && t < |run[i].pcs|
    ensures Writing(run[i].caller) ==> run[i].pcs[t] == Outside && !Enabled(run[i], WorkerEnter(t))
    ensures run[i].pcs[t] != Outside ==> run[i].func == |run[i].jobs| && run[i].end == run[i].tasks
                                         && run[i].workerCount == Min(run[i].restricted, run[i].tasks)
  {
    RunKeeps(run, i);
  }

  /** The division by worker_count is by zero exactly when the restricted count is zero. */
  lemma DivisorZero(run: seq<State>, i: nat, t: nat)
    requires Run(run) && i < |run| && t < |run[i].pcs|
    requires run[i].pcs[t].Rem? && run[i].end - run[i].pcs[t].seen > 0
    ensures Enabled(run[i], TaskStep(t))
    ensures Apply(run[i], TaskStep(t)).pcs[t] == Faulted <==> run[i].restricted == 0
  {
    RunKeeps(run, i);
    assert ThreadOk(run[i], t);
  }

  /** A job of one task with a restricted count of zero: the caller itself divides by zero. */
  lemma ZeroWorkersFault() returns (run: seq<State>)
    ensures Run(run) && run[|run| - 1].tasks == 1 && run[|run| - 1].restricted == 0
    ensures run[|run| - 1].pcs == [Faulted]
  {
    var s := State(Idle, 0, 0, 0, 0, 0, 0, [false], [Outside], [], [], [], [], []);
    run := [s];
    var labels := [NewJob(1, 0), CallerStep, CallerStep, CallerStep, CallerStep, CallerStep,
                   TaskStep(0), TaskStep(0), TaskStep(0)];
    var a := s.(caller := SetFuncs, tasks := 1, restricted := 0);
    var b := a.(caller := Inside, end := 1, pcs := [Init]);
    run := [s, a, a.(caller := SetCount), a.(caller := SetCurr), a.(caller := SetEnd), a.(end := 1, caller := Raise(0)),
            b, b.(pcs := [Load], begun := [0]), b.(pcs := [Rem(0)], begun := [0]), b.(pcs := [Faulted], begun := [0])];
    forall i | 0 <= i < |run| - 1 ensures StepAt(run, i) {
      assert Enabled(run[i], labels[i]) && run[i + 1] == Apply(run[i], labels[i]);
    }
  }

  /** Threads fault only in a job with tasks and a restricted count of zero, and such a job never returns. */
  lemma ZeroNeverReturns(run: seq<State>, i: nat)
    requires Run(run) && i < |run|
    ensures (exists t :: 0 <= t < |run[i].pcs| && run[i].pcs[t] == Faulted) ==>
      run[i].restricted == 0 && run[i].tasks > 0
    ensures run[i].restricted == 0 && run[i].tasks > 0 ==> !run[i].caller.Wait?
  {
    RunKeeps(run, i);
    if t :| 0 <= t < |run[i].pcs| && run[i].pcs[t] == Faulted {
      assert ThreadOk(run[i], t);
    }
  }

  /** A sequence of different numbers below n has at most n entries. */
  lemma {:induction false} Pigeonhole(xs: seq<nat>, n: nat)
    requires forall i | 0 <= i < |xs| :: xs[i] < n
    requires forall i, j | 0 <= i < j < |xs| :: xs[i] != xs[j]
    ensures |xs| <= n
  {
    if n == 0 {
      assert xs == [];
    } else if n - 1 in xs {
      var i :| 0 <= i < |xs| && xs[i] == n - 1;
      var rest := xs[..i] + xs[i + 1..];
      forall a, b | 0 <= a < b < |rest| ensures rest[a] != rest[b] {
        assert rest[a] == xs[if a < i then a else a + 1] && rest[b] == xs[if b < i then b else b + 1];
      }
      Pigeonhole(rest, n - 1);
    } else {
      Pigeonhole(xs, n - 1);
    }
  }

  /** The owner of the last task does not overshoot, so curr ends at most worker_count - 1 past end. */
  lemma CurrBound(run: seq<State>, i: nat)
    requires Run(run) && i < |run| && !Writing(run[i].caller) && run[i].tasks > 0
    ensures run[i].curr <= run[i].end + Max(run[i].workerCount, 1) - 1
  {
    RunKeeps(run, i);
    var s := run[i];
    if s.end <= s.curr {
      var late := s.claims[s.end - 1..];
      forall k | 0 <= k < |late| ensures late[k] < Max(s.workerCount, 1) {
        assert Latecomer(s, s.end - 1 + k);
      }
      Pigeonhole(late, Max(s.workerCount, 1));
    }
  }
}
