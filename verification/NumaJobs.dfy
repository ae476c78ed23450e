/**
 NumaJobDistributor over the subpools: one worker per subpool, started and awaited through a WORKING/WAITING flag, each
 handing its own work-stealing job to its subpool. The subpools' threads run interleaved with everything else.
 */
module NumaJobs {
  import P = NumaPool

  /** What one distributed job asks of a subpool. */
  datatype Request = Request(tasks: int, restricted: int)

  datatype Caller = Idle | SetFunc | Raise(i: nat) | Wait(i: nat)

  datatype Worker = Out | Submit | Running | Storing

  datatype State = State(
    caller: Caller, wanted: seq<Request>,  // argument of the running do_numa_job
    func: seq<Request>, working: seq<bool>, workers: seq<Worker>, pools: seq<P.State>,
    rounds: seq<seq<Request>>)             // history: the jobs that returned

  datatype Label = NewJob(wanted: seq<Request>) | CallerStep | WorkerStep(i: nat) | PoolStep(i: nat, l: P.Label)

  ghost predicate Initial(s: State) {
    && s.caller == Idle && s.rounds == [] && |s.working| == |s.workers| == |s.pools|
    && forall i | 0 <= i < |s.pools| :: !s.working[i] && s.workers[i] == Out && P.Initial(s.pools[i])
  }

  function CallerAct(s: State): State {
    match s.caller
    case Idle => s
    case SetFunc => s.(func := s.wanted, caller := Raise(0))
    case Raise(i) =>
      if i < |s.working| then s.(working := s.working[i := true], caller := Raise(i + 1)) else s.(caller := Wait(0))
    case Wait(i) =>
      if i < |s.working| then
        if s.working[i] then s else s.(caller := Wait(i + 1))
      else s.(caller := Idle, rounds := s.rounds + [s.wanted])
  }

  /** worker_thread: call the function, which submits to the subpool and returns when that is idle, then store
      WAITING. */
  ghost predicate WorkerEnabled(s: State, i: nat) {
    && i < |s.workers| == |s.working| == |s.pools|
    && match s.workers[i]
       case Out => s.working[i]
       case Submit =>
         && i < |s.func| && P.Enabled(s.pools[i], P.NewJob(s.func[i].tasks, s.func[i].restricted))
       case Running => s.pools[i].caller == P.Idle
       case Storing => true
  }

  ghost function WorkerAct(s: State, i: nat): State
    requires WorkerEnabled(s, i)
  {
    match s.workers[i]
    case Out => s.(workers := s.workers[i := Submit])
    case Submit =>
      var pool := P.Apply(s.pools[i], P.NewJob(s.func[i].tasks, s.func[i].restricted));
      s.(workers := s.workers[i := Running], pools := s.pools[i := pool])
    case Running => s.(workers := s.workers[i := Storing])
    case Storing => s.(workers := s.workers[i := Out], working := s.working[i := false])
  }

  ghost predicate Enabled(s: State, l: Label) {
    match l
    case NewJob(wanted) => s.caller == Idle && |wanted| == |s.pools|
    case CallerStep => true
    case WorkerStep(i) => WorkerEnabled(s, i)
    case PoolStep(i, l) => i < |s.pools| && !l.NewJob? && P.Enabled(s.pools[i], l)
  }

  ghost function Apply(s: State, l: Label): State
    requires Enabled(s, l)
  {
    match l
    case NewJob(wanted) => s.(caller := SetFunc, wanted := wanted)
    case CallerStep => CallerAct(s)
    case WorkerStep(i) => WorkerAct(s, i)
    case PoolStep(i, l) => s.(pools := s.pools[i := P.Apply(s.pools[i], l)])
  }

  ghost predicate Next(s: State, t: State) {
    exists l :: Enabled(s, l) && t == Apply(s, l)
  }

  ghost predicate StepAt(run: seq<State>, i: nat)
    requires i + 1 < |run|
  {
    Next(run[i], run[i + 1])
  }

  ghost predicate Run(run: seq<State>) {
    && |run| > 0 && Initial(run[0])
    && forall i | 0 <= i < |run| - 1 :: StepAt(run, i)
  }

  // ----- invariant

  /** Subpool i has finished its jobs of n rounds, with the sizes asked for. */
  ghost predicate Served(s: State, i: nat, n: nat)
    requires i < |s.pools|
  {
    && |s.pools[i].jobs| == n
    && forall r | 0 <= r < |s.rounds| && r < n :: i < |s.rounds[r]| && s.pools[i].jobs[r].tasks == s.rounds[r][i].tasks
  }

  ghost predicate ServedNow(s: State, i: nat)
    requires i < |s.pools| && i < |s.func|
  {
    Served(s, i, |s.rounds| + 1) && s.pools[i].jobs[|s.rounds|].tasks == s.func[i].tasks
  }

  /** The distributor has not raised flag i for the running job. */
  predicate Before(s: State, i: nat) {
    s.caller == Idle || s.caller == SetFunc || (s.caller.Raise? && s.caller.i <= i)
  }

  ghost predicate WorkerOk(s: State, i: nat)
    requires i < |s.pools| == |s.workers| == |s.working|
  {
    && P.Inv(s.pools[i])
    && (s.workers[i] != Running ==> s.pools[i].caller == P.Idle)
    && (s.workers[i] != Out ==> s.working[i])
    && if Before(s, i) then s.workers[i] == Out && !s.working[i] && Served(s, i, |s.rounds|)
       else
         && i < |s.func|
         && match s.workers[i]
            case Out => if s.working[i] then Served(s, i, |s.rounds|) else ServedNow(s, i)
            case Submit => Served(s, i, |s.rounds|)
            case Running =>
              if s.pools[i].caller == P.Idle then ServedNow(s, i)
              else Served(s, i, |s.rounds|) && s.pools[i].tasks == s.func[i].tasks
            case Storing => ServedNow(s, i)
  }

  ghost predicate Inv(s: State) {
    && |s.working| == |s.workers| == |s.pools|
    && (s.caller != Idle ==> |s.wanted| == |s.pools|)
    && (s.caller.Raise? || s.caller.Wait? ==> s.func == s.wanted)
    && (s.caller.Wait? ==> forall i | 0 <= i < s.caller.i && i < |s.working| :: !s.working[i])
    && forall i | 0 <= i < |s.pools| :: WorkerOk(s, i)
  }

  lemma InitialInv(s: State)
    requires Initial(s)
    ensures Inv(s)
  {
    forall i | 0 <= i < |s.pools| ensures WorkerOk(s, i) {
      P.RunKeeps([s.pools[i]], 0);
    }
  }

  lemma CallerKeeps(s: State)
    requires Inv(s)
    ensures Inv(CallerAct(s))
  {
    hide P.Inv;
    var t := CallerAct(s);
    forall i | 0 <= i < |t.pools| ensures WorkerOk(t, i) {
      assert WorkerOk(s, i);
    }
  }

  lemma NewJobKeeps(s: State, wanted: seq<Request>)
    requires Inv(s) && Enabled(s, NewJob(wanted))
    ensures Inv(Apply(s, NewJob(wanted)))
  {
    var t := Apply(s, NewJob(wanted));
    forall i | 0 <= i < |t.pools| ensures WorkerOk(t, i) {
      assert WorkerOk(s, i);
    }
  }

  /** A subpool's own step ends a job only with one more finished job, of the size it was running. */
  lemma PoolEffect(p: P.State, l: P.Label)
    requires |p.pcs| == |p.working| && P.Enabled(p, l) && !l.NewJob?
    ensures var q := P.Apply(p, l);
      && q.tasks == p.tasks
      && (p.caller == P.Idle ==> q.caller == P.Idle && q.jobs == p.jobs)
      && (p.caller != P.Idle && q.caller != P.Idle ==> q.jobs == p.jobs)
      && (p.caller != P.Idle && q.caller == P.Idle ==>
            q.jobs == p.jobs + [P.Job(p.tasks, p.workerCount, p.calls, p.begun, p.ended)])
  {
  }

  lemma PoolMoves(p: P.State, l: P.Label)
    requires P.Inv(p) && P.Enabled(p, l) && !l.NewJob?
    ensures var q := P.Apply(p, l);
      && P.Inv(q) && q.tasks == p.tasks
      && (p.caller == P.Idle ==> q.caller == P.Idle && q.jobs == p.jobs)
      && (p.caller != P.Idle && q.caller != P.Idle ==> q.jobs == p.jobs)
      && (p.caller != P.Idle && q.caller == P.Idle ==>
            q.jobs == p.jobs + [P.Job(p.tasks, p.workerCount, p.calls, p.begun, p.ended)])
  {
    PoolEffect(p, l);
    P.NextKeeps(p, P.Apply(p, l));
  }

  lemma PoolKeepsWorker(s: State, i: nat, l: P.Label)
    requires i < |s.pools| == |s.workers| == |s.working| && WorkerOk(s, i) && Enabled(s, PoolStep(i, l))
    ensures var t := Apply(s, PoolStep(i, l)); |t.pools| == |s.pools| && WorkerOk(t, i)
  {
    hide P.Inv, P.Apply, P.Enabled;
    PoolMoves(s.pools[i], l);
  }

  lemma PoolKeeps(s: State, i: nat, l: P.Label)
    requires Inv(s) && Enabled(s, PoolStep(i, l))
    ensures Inv(Apply(s, PoolStep(i, l)))
  {
    hide P.Inv, P.Apply, P.Enabled;
    var t := Apply(s, PoolStep(i, l));
    forall j | 0 <= j < |t.pools| ensures WorkerOk(t, j) {
      assert WorkerOk(s, j);
      if j == i {
        PoolKeepsWorker(s, i, l);
      }
    }
  }

  lemma SubmitKeeps(s: State, i: nat)
    requires Inv(s) && Enabled(s, WorkerStep(i)) && s.workers[i] == Submit
    ensures Inv(Apply(s, WorkerStep(i)))
  {
    hide P.Inv;
    var t := Apply(s, WorkerStep(i));
    assert WorkerOk(s, i);
    P.NextKeeps(s.pools[i], t.pools[i]);
    forall j | 0 <= j < |t.pools| ensures WorkerOk(t, j) {
      assert WorkerOk(s, j);
    }
  }

  lemma WorkerKeeps(s: State, i: nat)
    requires Inv(s) && Enabled(s, WorkerStep(i)) && s.workers[i] != Submit
    ensures Inv(Apply(s, WorkerStep(i)))
  {
    hide P.Inv;
    var t := Apply(s, WorkerStep(i));
    assert WorkerOk(s, i);
    forall j | 0 <= j < |t.pools| ensures WorkerOk(t, j) {
      assert WorkerOk(s, j);
    }
  }

  lemma NextKeeps(s: State, t: State)
    requires Inv(s) && Next(s, t)
    ensures Inv(t)
  {
    var l :| Enabled(s, l) && t == Apply(s, l);
    match l
    case NewJob(wanted) => NewJobKeeps(s, wanted);
    case CallerStep => CallerKeeps(s);
    case WorkerStep(i) => if s.workers[i] == Submit { SubmitKeeps(s, i); } else { WorkerKeeps(s, i); }
    case PoolStep(i, l) => PoolKeeps(s, i, l);
  }

  lemma {:induction false} RunKeeps(run: seq<State>, k: nat)
    requires Run(run) && k < |run|
    ensures Inv(run[k])
  {
    if k == 0 {
      InitialInv(run[0]);
    } else {
      RunKeeps(run, k - 1);
      assert StepAt(run, k - 1);
      NextKeeps(run[k - 1], run[k]);
    }
  }

  /** After every do_numa_job that returned, each pair of a subpool and one of its tasks has been computed exactly once
      for that job. */
  lemma EveryPairOnce(run: seq<State>, k: nat, r: nat, i: nat)
    requires Run(run) && k < |run| && r < |run[k].rounds| && i < |run[k].pools|
    ensures var pool := run[k].pools[i];
      && r < |pool.jobs| && i < |run[k].rounds[r]| && pool.jobs[r].tasks == run[k].rounds[r][i].tasks
      && P.ExactlyOnce(r, pool.jobs[r]) && P.Framed(pool.jobs[r])
  {
    RunKeeps(run, k);
    assert WorkerOk(run[k], i);
  }

  /** The compute function is not read while do_numa_job replaces it. */
  lemma FuncIsStable(run: seq<State>, k: nat, i: nat)
    requires Run(run) && k < |run| && i < |run[k].workers| == |run[k].working|
    ensures run[k].caller == Idle || run[k].caller == SetFunc ==> run[k].workers[i] == Out && !run[k].working[i]
    ensures run[k].workers[i] != Out ==> run[k].func == run[k].wanted
  {
    RunKeeps(run, k);
    assert WorkerOk(run[k], i);
  }
}
