/**
 Owned and legacy tasks of CPUInfer, their destruction, and the guard that destroys a task unless it is released.
 An object that has been deleted says so; every method that touches an object requires it not to be deleted, so a
 verified caller never uses or deletes one twice.
 */
module CpuInferTask {

  /** The arguments of a task: a slot for the CPUInfer that runs it, and how often it was run and destroyed. */
  class Args {
    var owner: object?
    var runs: nat
    var destroyed: nat

    constructor ()
      ensures owner == null && runs == 0 && destroyed == 0
    {
      owner, runs, destroyed := null, 0, 0;
    }
  }

  /** An owned task's payload; destroys says whether it carries a destroy function. */
  class Payload {
    const args: Args?
    const destroys: bool
    var deleted: bool

    constructor (args: Args?, destroys: bool)
      ensures this.args == args && this.destroys == destroys && !deleted
    {
      this.args, this.destroys, deleted := args, destroys, false;
    }
  }

  /** A pair of a function and an opaque pointer: owned when the function is the payload runner. */
  datatype Task = Owned(payload: Payload) | Legacy(opaqueArgs: Args?)

  function ArgsOf(task: Task): Args? {
    match task
    case Owned(payload) => payload.args
    case Legacy(args) => args
  }

  /** The objects a task reaches. */
  ghost function Reach(task: Task): set<object> {
    (match task case Owned(payload) => {payload} case Legacy(_) => {})
    + (if ArgsOf(task) == null then {} else {ArgsOf(task)})
  }

  ghost predicate Live(task: Task)
    reads Reach(task)
  {
    && (task.Owned? ==> !task.payload.deleted)
    && (ArgsOf(task) != null ==> ArgsOf(task).destroyed == 0)
  }

  /** An owned task that has been destroyed: its payload deleted, its arguments destroyed once if it had a destroyer. */
  ghost predicate Gone(payload: Payload)
    reads Reach(Owned(payload))
  {
    payload.deleted && (payload.args != null ==> payload.args.destroyed == if payload.destroys then 1 else 0)
  }

  /** A stream counts as eager only on a successful query that says so; the hint never decides. */
  function ResolveCaptureState(hint: bool, querySucceeded: bool, queryCapturing: bool): (capturing: bool)
    ensures !capturing <==> querySucceeded && !queryCapturing
  {
    if querySucceeded then queryCapturing else true
  }

  /** The destroy function applied to args. */
  method DestroyArgs(args: Args)
    requires args.destroyed == 0
    modifies args`destroyed
    ensures args.destroyed == 1
  {
    args.destroyed := 1;
  }

  /** Allocation may fail: then the arguments are destroyed at once and the caller gets the exception. */
  method MakeOwnedTask(args: Args?, destroys: bool, allocFails: bool) returns (thrown: bool, task: Task)
    requires args != null ==> args.destroyed == 0
    modifies if args == null then {} else {args}
    ensures thrown == allocFails
    ensures !thrown ==> task.Owned? && fresh(task.payload) && task.payload.args == args
                        && task.payload.destroys == destroys && Live(task)
    ensures args != null ==> args.destroyed == (if thrown && destroys then 1 else 0)
                             && args.runs == old(args.runs) && args.owner == old(args.owner)
  {
    if allocFails {
      if destroys && args != null {
        DestroyArgs(args);
      }
      return true, Legacy(null);
    }
    var payload := new Payload(args, destroys);
    return false, Owned(payload);
  }

  method DestroyTask(task: Task)
    requires task.Owned? ==> Live(task)
    modifies if task.Owned? then {task.payload} else {}
    modifies (if task.Owned? && task.payload.args != null then {task.payload.args} else {})`destroyed
    ensures task.Owned? ==> Gone(task.payload)
  {
    match task
    case Legacy(_) =>
    case Owned(payload) =>
      if payload.destroys && payload.args != null {
        DestroyArgs(payload.args);
      }
      payload.deleted := true;
  }

  /** The task's function on its arguments. */
  method RunTask(task: Task)
    requires Live(task) && ArgsOf(task) != null
    modifies ArgsOf(task)`runs
    ensures ArgsOf(task).runs == old(ArgsOf(task).runs) + 1
  {
    ArgsOf(task).runs := ArgsOf(task).runs + 1;
  }

  class CancelGuard {
    const task: Task
    var active: bool

    constructor (task: Task)
      ensures this.task == task && active
    {
      this.task, active := task, true;
    }

    method Release()
      modifies this
      ensures !active
    {
      active := false;
    }

    /** Also the destructor: destroys the task the first time, unless released. */
    method Cancel()
      requires active && task.Owned? ==> Live(task)
      modifies this, if active && task.Owned? then {task.payload} else {}
      modifies (if active && task.Owned? && task.payload.args != null then {task.payload.args} else {})`destroyed
      ensures !active && (old(active) && task.Owned? ==> Gone(task.payload))
    {
      if active {
        active := false;
        DestroyTask(task);
      }
    }
  }

  /** Any number of cancels, and the guard's end, destroy the task once; a released guard destroys nothing. */
  method GuardScope(task: Task, release: bool, cancels: nat)
    requires Live(task)
    modifies if task.Owned? then {task.payload} else {}
    modifies (if task.Owned? && task.payload.args != null then {task.payload.args} else {})`destroyed
    ensures if release then Live(task) else task.Owned? ==> Gone(task.payload)
  {
    var guard := new CancelGuard(task);
    if release {
      guard.Release();
    }
    for i := 0 to cancels
      invariant guard.task == task && (guard.active ==> !release)
      invariant if release || guard.active then Live(task) else task.Owned? ==> Gone(task.payload)
    {
      guard.Cancel();
    }
    guard.Cancel();
  }
}
