/**
 CPUInfer's entry points and the callbacks an accelerator stream runs for them. An eager launch runs its callback once;
 a launch while the stream is capturing becomes a node of a graph that may be replayed any number of times.
 */
module CpuInfer {
  import opened CpuInferTask

  class StreamTaskArgs {
    const task: Task
    const autofree: bool
    var deleted: bool

    constructor (task: Task, autofree: bool)
      ensures this.task == task && this.autofree == autofree && !deleted
    {
      this.task, this.autofree, deleted := task, autofree, false;
    }
  }

  class SyncArgs {
    const allow: nat
    const autofree: bool
    var deleted: bool

    constructor (allow: nat, autofree: bool)
      ensures this.allow == allow && this.autofree == autofree && !deleted
    {
      this.allow, this.autofree, deleted := allow, autofree, false;
    }
  }

  /** What the runtime and the queue do during one call. */
  datatype Env = Env(
    hint: bool, querySucceeded: bool, queryCapturing: bool,
    pendingException: bool, drainThrows: bool, allocFails: bool, launchFails: bool)

  function Capturing(env: Env): bool {
    ResolveCaptureState(env.hint, env.querySucceeded, env.queryCapturing)
  }

  /** The call gives up before launching: an eager call met a queued error that the drain rethrows. */
  predicate QueuedError(env: Env) {
    !Capturing(env) && env.pendingException && env.drainThrows
  }

  predicate Launches(env: Env) {
    !QueuedError(env) && !env.allocFails && !env.launchFails
  }

  ghost predicate Holds(nodes: seq<StreamTaskArgs>, p: Payload) {
    exists i :: 0 <= i < |nodes| && nodes[i].task == Owned(p)
  }

  ghost predicate NodeApart(task: Task, accepted: seq<Payload>) {
    match task
    case Owned(payload) => payload in accepted
    case Legacy(args) => args != null && forall i | 0 <= i < |accepted| :: accepted[i].args != args
  }

  /** No two owned tasks share a payload or arguments, and no legacy task uses an owned task's arguments. */
  ghost predicate Apart(nodes: seq<StreamTaskArgs>, accepted: seq<Payload>) {
    && (forall i, j | 0 <= i < j < |accepted| :: accepted[i] != accepted[j] && accepted[i].args != accepted[j].args)
    && (forall i | 0 <= i < |accepted| :: accepted[i].args != null)
    && (forall i, j | 0 <= i < j < |nodes| :: nodes[i] != nodes[j])
    && (forall i, j | 0 <= i < j < |nodes| && nodes[i].task.Owned? :: nodes[i].task != nodes[j].task)
    && (forall i | 0 <= i < |nodes| :: NodeApart(nodes[i].task, accepted))
  }

  /** What a caller hands over: an owned task for the first time and not sharing arguments, or a legacy task. */
  ghost predicate Offered(task: Task, nodes: seq<StreamTaskArgs>, accepted: seq<Payload>) {
    && ArgsOf(task) != null
    && (forall i | 0 <= i < |accepted| :: accepted[i].args != ArgsOf(task) && Owned(accepted[i]) != task)
    && (task.Owned? ==> forall i | 0 <= i < |nodes| :: ArgsOf(nodes[i].task) != ArgsOf(task))
  }

  function Accept(accepted: seq<Payload>, task: Task): seq<Payload> {
    if task.Owned? then accepted + [task.payload] else accepted
  }

  lemma AcceptApart(nodes: seq<StreamTaskArgs>, accepted: seq<Payload>, task: Task)
    requires Apart(nodes, accepted) && Offered(task, nodes, accepted)
    ensures Apart(nodes, Accept(accepted, task))
    ensures task.Owned? ==> !Holds(nodes, task.payload)
    ensures forall i | 0 <= i < |nodes| :: task.Owned? ==> Reach(task) !! Reach(nodes[i].task)
  {
    forall i | 0 <= i < |nodes|
      ensures NodeApart(nodes[i].task, Accept(accepted, task)) && (task.Owned? ==> nodes[i].task != task)
      ensures task.Owned? ==> Reach(task) !! Reach(nodes[i].task)
    {
      assert NodeApart(nodes[i].task, accepted);
    }
  }

  /** What happens to an offered owned task does not reach any other. */
  lemma OfferedAlone(eager: seq<StreamTaskArgs>, graph: seq<StreamTaskArgs>, accepted: seq<Payload>, task: Task)
    requires Apart(eager + graph, accepted) && Offered(task, eager + graph, accepted) && task.Owned?
    ensures forall i | 0 <= i < |eager| :: Reach(task) !! Reach(eager[i].task)
    ensures forall i | 0 <= i < |graph| :: Reach(task) !! Reach(graph[i].task)
    ensures forall i | 0 <= i < |accepted| :: Reach(task) !! Reach(Owned(accepted[i]))
  {
    AcceptApart(eager + graph, accepted, task);
    forall i | 0 <= i < |eager| ensures Reach(task) !! Reach(eager[i].task) {
      assert (eager + graph)[i] == eager[i];
    }
    forall i | 0 <= i < |graph| ensures Reach(task) !! Reach(graph[i].task) {
      assert (eager + graph)[|eager| + i] == graph[i];
    }
  }

  lemma NodeJoins(before: seq<StreamTaskArgs>, after: seq<StreamTaskArgs>, n: StreamTaskArgs, accepted: seq<Payload>)
    requires Apart(before + after, accepted) && Offered(n.task, before + after, accepted)
    requires forall i | 0 <= i < |before + after| :: (before + after)[i] != n
    ensures Apart(before + [n] + after, Accept(accepted, n.task))
    ensures n.task.Owned? ==> Holds(before + [n] + after, n.task.payload)
    ensures forall i | 0 <= i < |accepted| && Holds(before + after, accepted[i]) ::
      Holds(before + [n] + after, accepted[i])
  {
    assert (before + [n] + after)[|before|] == n;
    forall p | p in accepted && Holds(before + after, p) ensures Holds(before + [n] + after, p) {
      var i :| 0 <= i < |before + after| && (before + after)[i].task == Owned(p);
      assert (before + [n] + after)[if i < |before| then i else i + 1] == (before + after)[i];
    }
    AcceptApart(before + after, accepted, n.task);
    var old', new' := before + after, before + [n] + after;
    forall i | 0 <= i < |new'| ensures NodeApart(new'[i].task, Accept(accepted, n.task)) {
      if i != |before| {
        assert new'[i] == old'[if i < |before| then i else i - 1];
      }
    }
    forall i, j | 0 <= i < j < |new'|
      ensures new'[i] != new'[j] && (new'[i].task.Owned? ==> new'[i].task != new'[j].task)
    {
      if i != |before| {
        assert new'[i] == old'[if i < |before| then i else i - 1];
      }
      if j != |before| {
        assert new'[j] == old'[if j < |before| then j else j - 1];
      }
    }
  }

  function Without<T>(s: seq<T>, i: nat): (rest: seq<T>)
    requires i < |s|
    ensures |rest| == |s| - 1
    ensures forall j | 0 <= j < |rest| :: rest[j] == s[if j < i then j else j + 1]
  {
    s[..i] + s[i + 1..]
  }

  lemma EagerDistinct(eager: seq<StreamTaskArgs>, graph: seq<StreamTaskArgs>, accepted: seq<Payload>, k: nat)
    requires Apart(eager + graph, accepted) && k < |eager|
    ensures forall i | 0 <= i < |eager| && i != k ::
      eager[i] != eager[k] && (eager[k].task.Owned? ==> eager[i].task != eager[k].task)
    ensures forall i | 0 <= i < |graph| ::
      graph[i] != eager[k] && (eager[k].task.Owned? ==> graph[i].task != eager[k].task)
    ensures forall i | 0 <= i < |eager| :: NodeApart(eager[i].task, accepted)
    ensures forall i | 0 <= i < |graph| :: NodeApart(graph[i].task, accepted)
  {
    var all := eager + graph;
    assert forall i | 0 <= i < |eager| :: eager[i] == all[i];
    assert forall i | 0 <= i < |graph| :: graph[i] == all[|eager| + i];
  }

  lemma RestApart(nodes: seq<StreamTaskArgs>, accepted: seq<Payload>, k: nat)
    requires Apart(nodes, accepted) && k < |nodes|
    ensures Apart(Without(nodes, k), accepted)
  {
    var rest := Without(nodes, k);
    forall i | 0 <= i < |rest| ensures NodeApart(rest[i].task, accepted) {
      assert rest[i] == nodes[if i < k then i else i + 1];
    }
  }

  lemma RestHolds(nodes: seq<StreamTaskArgs>, p: Payload, k: nat)
    requires k < |nodes| && Holds(nodes, p) && nodes[k].task != Owned(p)
    ensures Holds(Without(nodes, k), p)
  {
    var i :| 0 <= i < |nodes| && nodes[i].task == Owned(p);
    assert Without(nodes, k)[if i < k then i else i - 1] == nodes[i];
  }

  /** Tasks of accepted, different owned payloads, or an owned and a legacy one, reach different objects. */
  lemma TasksApart(nodes: seq<StreamTaskArgs>, accepted: seq<Payload>, a: Task, b: Task)
    requires Apart(nodes, accepted) && NodeApart(a, accepted) && NodeApart(b, accepted) && a.Owned? && a != b
    ensures Reach(a) !! Reach(b)
  {
  }

  /** An eager callback shares nothing owned with any other, so it can leave and be destroyed. */
  lemma EagerLeaves(eager: seq<StreamTaskArgs>, graph: seq<StreamTaskArgs>, accepted: seq<Payload>, k: nat)
    requires Apart(eager + graph, accepted) && k < |eager|
    ensures Apart(Without(eager, k) + graph, accepted)
    ensures forall i | 0 <= i < |eager| && i != k :: eager[i] != eager[k]
    ensures forall i | 0 <= i < |graph| :: graph[i] != eager[k]
    ensures forall i | 0 <= i < |accepted| && Owned(accepted[i]) != eager[k].task ::
      Holds(eager + graph, accepted[i]) ==> Holds(Without(eager, k) + graph, accepted[i])
    ensures eager[k].task.Owned? ==>
      && (forall i | 0 <= i < |eager| && i != k :: Reach(eager[k].task) !! Reach(eager[i].task))
      && (forall i | 0 <= i < |graph| :: Reach(eager[k].task) !! Reach(graph[i].task))
      && (forall i | 0 <= i < |accepted| && Owned(accepted[i]) != eager[k].task ::
            Reach(eager[k].task) !! Reach(Owned(accepted[i])))
  {
    var nodes, task := eager + graph, eager[k].task;
    EagerDistinct(eager, graph, accepted, k);
    RestApart(nodes, accepted, k);
    assert Without(nodes, k) == Without(eager, k) + graph;
    forall i | 0 <= i < |accepted| && Owned(accepted[i]) != task && Holds(nodes, accepted[i])
      ensures Holds(Without(eager, k) + graph, accepted[i])
    {
      RestHolds(nodes, accepted[i], k);
    }
    if task.Owned? {
      forall i | 0 <= i < |eager| && i != k ensures Reach(task) !! Reach(eager[i].task) {
        TasksApart(nodes, accepted, task, eager[i].task);
      }
      forall i | 0 <= i < |graph| ensures Reach(task) !! Reach(graph[i].task) {
        TasksApart(nodes, accepted, task, graph[i].task);
      }
      forall i | 0 <= i < |accepted| && Owned(accepted[i]) != task ensures Reach(task) !! Reach(Owned(accepted[i])) {
        TasksApart(nodes, accepted, task, Owned(accepted[i]));
      }
    }
  }

  ghost function NodesReach(nodes: seq<StreamTaskArgs>): set<object> {
    set i, o | 0 <= i < |nodes| && o in Reach(nodes[i].task) :: o
  }

  ghost function PayloadsReach(accepted: seq<Payload>): set<object> {
    set i, o | 0 <= i < |accepted| && o in Reach(Owned(accepted[i])) :: o
  }

  class CPUInfer {
    var eager: seq<StreamTaskArgs>  // launched, callback not run yet
    var graph: seq<StreamTaskArgs>  // recorded by a capturing stream
    var syncs: seq<SyncArgs>        // the same for the sync callbacks
    var syncGraph: seq<SyncArgs>
    var recorded: nat               // callback exceptions handed to the queue

    ghost var accepted: seq<Payload>  // owned tasks handed over so far

    ghost function Nodes(): seq<StreamTaskArgs>
      reads this
    {
      eager + graph
    }

    /** A launched or recorded callback can run: nothing it reaches has been deleted. */
    ghost predicate Ready(n: StreamTaskArgs)
      reads n, Reach(n.task)
    {
      !n.deleted && ArgsOf(n.task) != null && Live(n.task) && ArgsOf(n.task).owner == this
    }

    ghost predicate AllReady()
      reads this, eager, graph, NodesReach(eager), NodesReach(graph)
    {
      && (forall i | 0 <= i < |eager| :: eager[i].autofree && Ready(eager[i]))
      && (forall i | 0 <= i < |graph| :: !graph[i].autofree && Ready(graph[i]))
    }

    /** An owned task that no callback holds any more has been destroyed, once. */
    ghost predicate Settled()
      reads this, PayloadsReach(accepted)
    {
      forall i | 0 <= i < |accepted| && !Holds(Nodes(), accepted[i]) :: Gone(accepted[i])
    }

    ghost predicate SyncsOk()
      reads this, syncs, syncGraph
    {
      && (forall i | 0 <= i < |syncs| :: syncs[i].autofree && !syncs[i].deleted)
      && (forall i | 0 <= i < |syncGraph| :: !syncGraph[i].autofree && !syncGraph[i].deleted)
      && (forall i, j | 0 <= i < j < |syncs| :: syncs[i] != syncs[j])
    }

    ghost predicate Valid()
      reads this, eager, graph, syncs, syncGraph, NodesReach(eager), NodesReach(graph), PayloadsReach(accepted)
    {
      Apart(Nodes(), accepted) && AllReady() && Settled() && SyncsOk()
    }

    constructor ()
      ensures Valid() && eager == [] && graph == [] && syncs == [] && syncGraph == [] && accepted == []
    {
      eager, graph, syncs, syncGraph, recorded, accepted := [], [], [], [], 0, [];
    }

    /** Bookkeeping: a destroyed owned task, or a legacy one, counts as handed over. */
    ghost method TakeOver(task: Task)
      requires Apart(Nodes(), Accept(accepted, task)) && AllReady() && Settled() && SyncsOk()
      requires task.Owned? ==> Gone(task.payload)
      modifies this`accepted
      ensures Valid() && accepted == Accept(old(accepted), task)
    {
      accepted := Accept(accepted, task);
    }

    /** The guard's end: an offered task is taken over and, when owned, destroyed. */
    method Discard(guard: CancelGuard)
      requires Valid() && guard.active && Live(guard.task) && Offered(guard.task, Nodes(), accepted)
      modifies this`accepted, guard, Reach(guard.task)
      ensures Valid() && accepted == Accept(old(accepted), guard.task) && !guard.active
      ensures guard.task.Owned? ==> Gone(guard.task.payload)
      ensures ArgsOf(guard.task).runs == old(ArgsOf(guard.task).runs)
    {
      AcceptApart(Nodes(), accepted, guard.task);
      if guard.task.Owned? {
        OfferedAlone(eager, graph, accepted, guard.task);
      }
      guard.Cancel();
      TakeOver(guard.task);
    }

    /** *((CPUInfer**)args) = this. */
    method TakeOwnership(task: Task)
      requires Valid() && Live(task) && Offered(task, Nodes(), accepted)
      modifies ArgsOf(task)`owner
      ensures Valid() && ArgsOf(task).owner == this
    {
      ArgsOf(task).owner := this;
    }

    /** submit: run the task now, under a guard that destroys it on every way out. */
    method Submit(task: Task, env: Env, throws: bool) returns (thrown: bool)
      requires Valid() && Live(task) && Offered(task, Nodes(), accepted)
      modifies this`accepted, Reach(task)
      ensures Valid() && accepted == Accept(old(accepted), task)
      ensures task.Owned? ==> Gone(task.payload)
      ensures var ran := !(env.pendingException && env.drainThrows);
        && ArgsOf(task).runs == old(ArgsOf(task).runs) + (if ran then 1 else 0)
        && thrown == (ran ==> throws)
    {
      var guard := new CancelGuard(task);
      if env.pendingException && env.drainThrows {
        Discard(guard);
        return true;
      }
      TakeOwnership(task);
      RunTask(task);
      Discard(guard);
      return throws;
    }

    /** delete stream_args, which no stream holds. */
    method DeleteArgs(n: StreamTaskArgs)
      requires Valid() && !n.deleted
      requires forall i | 0 <= i < |Nodes()| :: Nodes()[i] != n
      modifies n
      ensures Valid() && n.deleted
    {
      hide Apart;
      assert forall i | 0 <= i < |eager| :: eager[i] == Nodes()[i];
      assert forall i | 0 <= i < |graph| :: graph[i] == Nodes()[|eager| + i];
      n.deleted := true;
    }

    method AppendEager(n: StreamTaskArgs)
      requires Valid() && Ready(n) && Offered(n.task, Nodes(), accepted) && n.autofree
      requires forall i | 0 <= i < |Nodes()| :: Nodes()[i] != n
      modifies this`eager, this`accepted
      ensures Valid() && accepted == Accept(old(accepted), n.task) && eager == old(eager) + [n]
    {
      NodeJoins(eager, graph, n, accepted);
      eager := eager + [n];
      accepted := Accept(accepted, n.task);
    }

    method AppendGraph(n: StreamTaskArgs)
      requires Valid() && Ready(n) && Offered(n.task, Nodes(), accepted) && !n.autofree
      requires forall i | 0 <= i < |Nodes()| :: Nodes()[i] != n
      modifies this`graph, this`accepted
      ensures Valid() && accepted == Accept(old(accepted), n.task) && graph == old(graph) + [n]
    {
      NodeJoins(Nodes(), [], n, accepted);
      assert Nodes() + [] == Nodes();
      graph := graph + [n];
      assert Nodes() == old(Nodes()) + [n] + [];
      accepted := Accept(accepted, n.task);
    }

    /** A successful cudaLaunchHostFunc: an eager stream will run the callback once, a capturing one records it. */
    method Launch(n: StreamTaskArgs)
      requires Valid() && Ready(n) && Offered(n.task, Nodes(), accepted)
      requires forall i | 0 <= i < |Nodes()| :: Nodes()[i] != n
      modifies this`eager, this`graph, this`accepted
      ensures Valid() && accepted == Accept(old(accepted), n.task)
      ensures if n.autofree then eager == old(eager) + [n] && graph == old(graph)
              else eager == old(eager) && graph == old(graph) + [n]
    {
      if n.autofree {
        AppendEager(n);
      } else {
        AppendGraph(n);
      }
    }

    /** cudaLaunchHostFunc and what follows its result. */
    method LaunchOrCancel(guard: CancelGuard, n: StreamTaskArgs, fails: bool) returns (thrown: bool)
      requires Valid() && guard.active && n.task == guard.task && Ready(n) && Offered(guard.task, Nodes(), accepted)
      requires forall i | 0 <= i < |Nodes()| :: Nodes()[i] != n
      modifies this`eager, this`graph, this`accepted, guard, n, Reach(guard.task)
      ensures Valid() && accepted == Accept(old(accepted), guard.task) && !guard.active && thrown == fails
      ensures ArgsOf(guard.task).runs == old(ArgsOf(guard.task).runs)
      ensures thrown ==>
        eager == old(eager) && graph == old(graph) && n.deleted && (guard.task.Owned? ==> Gone(guard.task.payload))
      ensures n.deleted == fails
      ensures !thrown ==> if n.autofree then eager == old(eager) + [n] && graph == old(graph)
                          else eager == old(eager) && graph == old(graph) + [n]
    {
      if fails {
        DeleteArgs(n);
        Discard(guard);
        return true;
      }
      guard.Release();
      Launch(n);
      return false;
    }

    /** The rest of submit_with_cuda_stream, from the allocation of the callback's arguments. */
    method AllocateAndLaunch(guard: CancelGuard, env: Env) returns (thrown: bool, ghost made: StreamTaskArgs?)
      requires Valid() && guard.active && Live(guard.task) && Offered(guard.task, Nodes(), accepted)
      requires ArgsOf(guard.task).owner == this
      modifies this`eager, this`graph, this`accepted, guard, Reach(guard.task)
      ensures Valid() && accepted == Accept(old(accepted), guard.task) && !guard.active
      ensures thrown == (env.allocFails || env.launchFails)
      ensures ArgsOf(guard.task).runs == old(ArgsOf(guard.task).runs)
      ensures made == null <==> env.allocFails
      ensures made != null ==> fresh(made) && made.task == guard.task
                                    && made.autofree == !Capturing(env) && made.deleted == env.launchFails
      ensures thrown ==>
        eager == old(eager) && graph == old(graph) && (guard.task.Owned? ==> Gone(guard.task.payload))
      ensures !thrown && Capturing(env) ==> eager == old(eager) && graph == old(graph) + [made]
      ensures !thrown && !Capturing(env) ==> graph == old(graph) && eager == old(eager) + [made]
    {
      if env.allocFails {
        Discard(guard);
        return true, null;
      }
      var streamArgs := new StreamTaskArgs(guard.task, !Capturing(env));
      made := streamArgs;
      thrown := LaunchOrCancel(guard, streamArgs, env.launchFails);
    }

    /** submit_with_cuda_stream: hand the task to the stream, or destroy it and throw. made is the callback's
        arguments, null when the call threw before allocating them. */
    method SubmitWithCudaStream(task: Task, env: Env) returns (thrown: bool, ghost made: StreamTaskArgs?)
      requires Valid() && Live(task) && Offered(task, Nodes(), accepted)
      modifies this`eager, this`graph, this`accepted, Reach(task)
      ensures Valid() && accepted == Accept(old(accepted), task)
      ensures thrown == !Launches(env) && ArgsOf(task).runs == old(ArgsOf(task).runs)
      ensures made == null <==> QueuedError(env) || env.allocFails
      ensures made != null ==> fresh(made) && made.task == task
                                    && made.autofree == !Capturing(env) && made.deleted == env.launchFails
      ensures thrown ==> eager == old(eager) && graph == old(graph) && (task.Owned? ==> Gone(task.payload))
      ensures !thrown && Capturing(env) ==> eager == old(eager) && graph == old(graph) + [made]
      ensures !thrown && !Capturing(env) ==> graph == old(graph) && eager == old(eager) + [made]
    {
      var guard := new CancelGuard(task);
      if !Capturing(env) && env.pendingException && env.drainThrows {
        Discard(guard);
        return true, null;
      }
      TakeOwnership(task);
      thrown, made := AllocateAndLaunch(guard, env);
    }

    /** submit_: the callback of a launched or recorded task. */
    method Callback(n: StreamTaskArgs, throws: bool)
      requires Ready(n)
      modifies this`recorded, n, Reach(n.task)
      ensures ArgsOf(n.task).runs == old(ArgsOf(n.task).runs) + 1 && ArgsOf(n.task).owner == this
      ensures recorded == old(recorded) + (if throws then 1 else 0)
      ensures if n.autofree then n.deleted && (n.task.Owned? ==> Gone(n.task.payload)) else Ready(n)
      ensures n.task.Legacy? ==> ArgsOf(n.task).destroyed == 0
    {
      RunTask(n.task);
      if throws {
        recorded := recorded + 1;
      }
      if n.autofree {
        DestroyTask(n.task);
        n.deleted := true;
      }
    }

    /** An eager callback that has run leaves its stream. */
    method Retire(k: nat)
      requires k < |eager| && Apart(Nodes(), accepted) && SyncsOk()
      requires (forall i | 0 <= i < |eager| && i != k :: eager[i].autofree && Ready(eager[i]))
      requires (forall i | 0 <= i < |graph| :: !graph[i].autofree && Ready(graph[i]))
      requires Settled() && (eager[k].task.Owned? ==> Gone(eager[k].task.payload))
      modifies this`eager
      ensures Valid() && eager == Without(old(eager), k)
    {
      EagerLeaves(eager, graph, accepted, k);
      eager := Without(eager, k);
    }

    /** A stream reaches an eager callback, whichever of those launched: it runs once, and the task and the callback's
        arguments go. */
    method RunEager(k: nat, throws: bool)
      requires Valid() && k < |eager|
      modifies this`eager, this`recorded, eager[k], Reach(eager[k].task)
      ensures Valid() && eager == Without(old(eager), k)
      ensures old(eager)[k].deleted && (old(eager)[k].task.Owned? ==> Gone(old(eager)[k].task.payload))
      ensures ArgsOf(old(eager)[k].task).runs == old(ArgsOf(eager[k].task).runs) + 1
      ensures recorded == old(recorded) + (if throws then 1 else 0)
    {
      hide Apart;
      EagerLeaves(eager, graph, accepted, k);
      Callback(eager[k], throws);
      assert forall i | 0 <= i < |eager| && i != k :: Ready(eager[i]);
      assert forall i | 0 <= i < |graph| :: Ready(graph[i]);
      Retire(k);
    }

    /** A replay of the graph reaches recorded callback i: it runs, and nothing is deleted. */
    method Replay(i: nat, throws: bool)
      requires Valid() && i < |graph|
      modifies this`recorded, graph[i], Reach(graph[i].task)
      ensures Valid() && Ready(graph[i])
      ensures ArgsOf(graph[i].task).runs == old(ArgsOf(graph[i].task).runs) + 1
      ensures recorded == old(recorded) + (if throws then 1 else 0)
    {
      Callback(graph[i], throws);
    }

    /** When every eager callback has run, each owned task handed over has been destroyed once, except those a graph
        recorded, which are untouched. */
    lemma DrainedMeansDestroyed(i: nat)
      requires Valid() && eager == [] && i < |accepted|
      ensures if exists g :: 0 <= g < |graph| && graph[g].task == Owned(accepted[i])
              then !accepted[i].deleted && accepted[i].args.destroyed == 0
              else Gone(accepted[i])
    {
      assert Nodes() == graph;
    }

    /** A successful launch of a sync callback. */
    method LaunchSync(args: SyncArgs)
      requires Valid() && !args.deleted && (forall i | 0 <= i < |syncs| :: syncs[i] != args)
      modifies this`syncs, this`syncGraph
      ensures Valid()
      ensures if args.autofree then syncs == old(syncs) + [args] && syncGraph == old(syncGraph)
              else syncs == old(syncs) && syncGraph == old(syncGraph) + [args]
    {
      if args.autofree {
        syncs := syncs + [args];
      } else {
        syncGraph := syncGraph + [args];
      }
    }

    /** sync_with_cuda_stream: hand one new set of arguments to the stream, or delete it and throw. made is that
        set, null when the call threw before allocating it. */
    method SyncWithCudaStream(allow: nat, env: Env) returns (thrown: bool, ghost made: SyncArgs?)
      requires Valid()
      modifies this`syncs, this`syncGraph
      ensures Valid() && thrown == !Launches(env)
      ensures made == null <==> QueuedError(env) || env.allocFails
      ensures made != null ==> fresh(made) && made.allow == allow
                                    && made.autofree == !Capturing(env) && made.deleted == env.launchFails
      ensures thrown ==> syncs == old(syncs) && syncGraph == old(syncGraph)
      ensures !thrown && Capturing(env) ==> syncs == old(syncs) && syncGraph == old(syncGraph) + [made]
      ensures !thrown && !Capturing(env) ==> syncGraph == old(syncGraph) && syncs == old(syncs) + [made]
    {
      var capturing := Capturing(env);
      if !capturing && env.pendingException && env.drainThrows {
        return true, null;
      }
      if env.allocFails {
        return true, null;
      }
      var args := new SyncArgs(allow, !capturing);
      made := args;
      thrown := env.launchFails;
      if thrown {
        args.deleted := true;
      } else {
        LaunchSync(args);
      }
    }

    /** sync_: the callback's arguments go unless a graph may replay it. */
    method SyncCallback(args: SyncArgs) returns (allow: nat)
      requires !args.deleted
      modifies args
      ensures allow == args.allow && args.deleted == args.autofree
    {
      allow := args.allow;
      if args.autofree {
        args.deleted := true;
      }
    }

    /** A stream reaches an eager sync callback. */
    method RunSync(k: nat) returns (allow: nat)
      requires Valid() && k < |syncs|
      modifies this`syncs, syncs[k]
      ensures Valid() && syncs == Without(old(syncs), k) && old(syncs)[k].deleted && allow == old(syncs)[k].allow
    {
      allow := SyncCallback(syncs[k]);
      syncs := Without(syncs, k);
    }

    /** A replay of the graph reaches recorded sync callback i. */
    method ReplaySync(i: nat) returns (allow: nat)
      requires Valid() && i < |syncGraph|
      modifies syncGraph[i]
      ensures Valid() && !syncGraph[i].deleted && allow == syncGraph[i].allow
    {
      allow := SyncCallback(syncGraph[i]);
    }
  }
}
