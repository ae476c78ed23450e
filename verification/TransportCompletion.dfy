/**
 Completion of the transport under fair scheduling: in an infinite run under the intended use in which every thread and
 device that has a step to take is scheduled again and again, every rank returns from every layer of the plan.
 */
module TransportCompletion {
  import opened TransportModel
  import opened TransportInvariant
  import opened TransportProofs
  import opened TransportProgress

  /** The caller and API thread of a rank, its copy thread, and the device executing its copy stream. */
  datatype Thread = ApiThread(r: nat) | CopyThread(r: nat) | Device(r: nat)

  /** The step is the thread's; a store of the writer callback is nobody's, so that the callback has to return. */
  predicate Takes(t: Thread, l: Label) {
    match t
    case ApiThread(r) =>
      || (l.CallJoin? && l.r == r) || (l.CallProducer? && r == 0) || (l.CallWait? && l.r == r)
      || (l.ApiStep? && l.r == r)
    case CopyThread(r) => l.ConsStep? && l.r == r
    case Device(r) => l.CopyRuns? && l.r == r
  }

  /** The thread has a step to take. */
  predicate Runnable(c: Cfg, plan: seq<Task>, g: Good, t: Thread)
    requires |g.s.api| == |g.s.m.stream| == |g.drivers| == c.ranks
  {
    match t
    case ApiThread(r) => r < c.ranks && (!Resting(g.s.api[r]) || (g.s.api[r].Ready? && g.drivers[r].at < |plan|))
    case CopyThread(r) => r < c.ranks
    case Device(r) => r < c.ranks && g.s.m.stream[r] != []
  }

  /** The thread's next step is no poll of an unmet condition. */
  ghost predicate CanWork(c: Cfg, plan: seq<Task>, g: Good, t: Thread)
    requires GoodShape(c, g)
  {
    && Runnable(c, plan, g, t)
    && match t
       case ApiThread(r) => g.s.api[r].Ready? || ApiReady(c, g.s.m, r, g.s.api[r])
       case CopyThread(r) => ConsReady(c, g.s.m, r, g.s.cons[r].pc)
       case Device(r) => true
  }

  ghost predicate GoesOn(c: Cfg, plan: seq<Task>, run: nat -> Good, labels: nat -> Label, i: nat) {
    GoodShape(c, run(i)) && GoodStep(c, plan, run(i), labels(i), run(i + 1))
  }

  /** At j the thread steps or has nothing to do. */
  ghost predicate Served(c: Cfg, plan: seq<Task>, run: nat -> Good, labels: nat -> Label, t: Thread, j: nat) {
    GoodShape(c, run(j)) && (Takes(t, labels(j)) || !Runnable(c, plan, run(j), t))
  }

  ghost predicate ServedFrom(c: Cfg, plan: seq<Task>, run: nat -> Good, labels: nat -> Label, t: Thread, i: nat) {
    exists j: nat :: i <= j && Served(c, plan, run, labels, t, j)
  }

  /** An infinite run under the intended use that never stops serving a thread with a step to take. */
  ghost predicate FairRun(c: Cfg, plan: seq<Task>, run: nat -> Good, labels: nat -> Label) {
    && ValidPlan(c, plan) && GoodInit(c, run(0))
    && (forall i: nat :: GoesOn(c, plan, run, labels, i))
    && (forall t: Thread, i: nat :: ServedFrom(c, plan, run, labels, t, i))
  }

  lemma {:induction false} FairRunInv(c: Cfg, plan: seq<Task>, run: nat -> Good, labels: nat -> Label, i: nat)
    requires FairRun(c, plan, run, labels)
    ensures GoodInv(c, plan, run(i))
  {
    hide ServedFrom, Inv, GoodInit, ApiGood, ConsGood, LayerGood, Step, Left;
    if i == 0 {
      GoodInitInv(c, plan, run(0));
    } else {
      FairRunInv(c, plan, run, labels, i - 1);
      assert GoesOn(c, plan, run, labels, i - 1);
      GoodStepProgress(c, plan, run(i - 1), labels(i - 1), run(i));
    }
  }

  // ----- a thread that can work keeps being able to

  lemma JoinReadyStays(c: Cfg, m: Mem, t: Mem, r: nat, pc: JoinPc)
    requires Shape(c, m) && Shape(c, t) && r < c.ranks && JoinOk(c, m, r, pc) && RelyApi(c, m, t, r)
    requires JoinReady(c, m, pc) && (pc.JoinFollow? && m.active == pc.e ==> m.waitReturned[r] != m.active)
    ensures JoinReady(c, t, pc)
  {
  }

  lemma ProducerReadyStays(c: Cfg, m: Mem, t: Mem, pc: ProdPc)
    requires Shape(c, m) && Shape(c, t) && Chain(c, t) && ProdShape(c, pc) && ProducerOk(c, m, pc)
    requires RelyProducer(c, m, t) && ProducerReady(c, m, pc)
    ensures ProducerReady(c, t, pc)
  {
    if pc.ProdBarrier? {
      forall j | 0 <= j < c.ranks ensures t.joinEpoch[j] == pc.e {
        assert m.joinEpoch[j] <= t.joinEpoch[j] && InPair(t.h, t.active, t.joinEpoch[j]);
      }
    }
  }

  /** A follower still looking for its epoch has not returned from it. */
  lemma FollowerNotBack(c: Cfg, plan: seq<Task>, m: Mem, begun: nat, r: nat, d: Driver, pc: JoinPc)
    requires ValidPlan(c, plan) && Shape(c, m) && r < c.ranks
    requires ApiGood(c, plan, m, begun, r, d, InJoin(pc)) && m.active == pc.e
    ensures m.waitReturned[r] != m.active
  {
    EpochOrder(c, plan, d.at, d.at + 1);
  }

  lemma ApiReadyStays(c: Cfg, plan: seq<Task>, m: Mem, t: Mem, begun: nat, r: nat, d: Driver, pc: Api)
    requires ValidPlan(c, plan) && Shape(c, m) && Shape(c, t) && Chain(c, t) && r < c.ranks
    requires ApiOk(c, m, r, pc) && ApiGood(c, plan, m, begun, r, d, pc) && RelyApi(c, m, t, r)
    requires ApiReady(c, m, r, pc)
    ensures ApiReady(c, t, r, pc)
  {
    match pc {
      case InJoin(join) =>
        if m.active == join.e {
          FollowerNotBack(c, plan, m, begun, r, d, join);
        }
        JoinReadyStays(c, m, t, r, join);
      case InProducer(prod) => ProducerReadyStays(c, m, t, prod);
      case _ =>
    }
  }

  lemma ConsReadyStays(c: Cfg, m: Mem, t: Mem, r: nat, k: Cons)
    requires Shape(c, m) && Shape(c, t) && r < c.ranks && ConsOk(c, m, r, k) && RelyCons(c, m, t, r)
    requires ConsReady(c, m, r, k.pc)
    ensures ConsReady(c, t, r, k.pc)
  {
  }

  /** The threads that did not move, found as they were, can still work. */
  lemma OthersCanWork(c: Cfg, plan: seq<Task>, g: Good, k: Good, api: int, cons: int, t: Thread)
    requires ValidPlan(c, plan) && GoodInv(c, plan, g) && GoodShape(c, k) && Inv(c, k.s)
    requires Others(c, g.s.m, k.s.m, api, cons) && Untouched(c, g, k, api, cons)
    requires CanWork(c, plan, g, t)
    requires t.ApiThread? ==> t.r != api
    requires t.CopyThread? ==> t.r != cons
    requires t.Device? ==> k.s.m.stream[t.r] != []
    ensures CanWork(c, plan, k, t)
  {
    hide Counters, Copies, Publications, Results, Cells;
    match t {
      case ApiThread(r) =>
        assert ApiGood(c, plan, g.s.m, g.begun, r, g.drivers[r], g.s.api[r]) && ApiOk(c, g.s.m, r, g.s.api[r]);
        if !g.s.api[r].Ready? {
          ApiReadyStays(c, plan, g.s.m, k.s.m, g.begun, r, g.drivers[r], g.s.api[r]);
        }
      case CopyThread(r) =>
        assert ConsOk(c, g.s.m, r, g.s.cons[r]);
        ConsReadyStays(c, g.s.m, k.s.m, r, g.s.cons[r]);
      case Device(r) =>
    }
  }

  lemma ApiStepCanWork(c: Cfg, plan: seq<Task>, g: Good, r: nat, k: Good, t: Thread)
    requires ValidPlan(c, plan) && GoodInv(c, plan, g) && GoodStep(c, plan, g, ApiStep(r, false), k)
    requires CanWork(c, plan, g, t) && t != ApiThread(r)
    ensures GoodShape(c, k) && CanWork(c, plan, k, t)
  {
    hide Shared, ApiGood, ConsGood, LayerGood, Others, Untouched, Step;
    ApiMovedInv(c, plan, g, r, k);
    ApiActGood(c, plan, g.s.m, g.begun, r, g.drivers[r], g.s.api[r]);
    assert ApiOk(c, g.s.m, r, g.s.api[r]);
    ApiUntouched(c, plan, g, r);
    OthersCanWork(c, plan, g, k, r, -1, t);
  }

  lemma ConsStreamStays(c: Cfg, m: Mem, r: nat, k: Cons, q: nat)
    requires Shape(c, m) && r < c.ranks && ConsShape(c, k) && q < c.ranks && m.stream[q] != []
    ensures var t := ConsAct(c, m, false, r, k, NoFault).m; |t.stream| == c.ranks && t.stream[q] != []
  {
  }

  lemma ConsStepCanWork(c: Cfg, plan: seq<Task>, g: Good, r: nat, k: Good, t: Thread)
    requires ValidPlan(c, plan) && GoodInv(c, plan, g) && GoodStep(c, plan, g, ConsStep(r, NoFault), k)
    requires CanWork(c, plan, g, t) && t != CopyThread(r)
    ensures GoodShape(c, k) && CanWork(c, plan, k, t)
  {
    hide Chain, Cells, Counters, Copies, Publications, Results, ApiGood, ConsGood, Others, Untouched;
    ConsMovedInv(c, plan, g, r, k);
    ConsStepGood(c, plan, g.s.m, g.begun, r, g.done[r], g.s.cons[r]);
    ConsUntouched(c, plan, g, r);
    if t.Device? {
      ConsStreamStays(c, g.s.m, r, g.s.cons[r], t.r);
    }
    OthersCanWork(c, plan, g, k, -1, r, t);
  }

  lemma CopyCanWork(c: Cfg, plan: seq<Task>, g: Good, r: nat, k: Good, t: Thread)
    requires ValidPlan(c, plan) && GoodInv(c, plan, g) && GoodStep(c, plan, g, CopyRuns(r), k)
    requires CanWork(c, plan, g, t) && t != Device(r)
    ensures GoodShape(c, k) && CanWork(c, plan, k, t)
  {
    hide Inv, ApiGood, ConsGood, LayerGood, Others, GoodStep;
    CopyMovedInv(c, plan, g, r, k);
    OthersCanWork(c, plan, g, k, -1, -1, t);
  }

  lemma WriterCanWork(c: Cfg, plan: seq<Task>, g: Good, l: Label, k: Good, t: Thread)
    requires ValidPlan(c, plan) && GoodInv(c, plan, g) && GoodStep(c, plan, g, l, k) && l.WriterStore?
    requires CanWork(c, plan, g, t)
    ensures GoodShape(c, k) && CanWork(c, plan, k, t)
  {
    hide Inv, ApiGood, ConsGood, LayerGood, Others, GoodStep;
    WriterMovedInv(c, plan, g, l, k);
    if t != ApiThread(0) {
      OthersCanWork(c, plan, g, k, 0, -1, t);
    }
  }

  lemma CallCanWork(c: Cfg, plan: seq<Task>, g: Good, l: Label, k: Good, t: Thread)
    requires ValidPlan(c, plan) && GoodInv(c, plan, g) && GoodStep(c, plan, g, l, k)
    requires l.CallJoin? || l.CallProducer? || l.CallWait?
    requires CanWork(c, plan, g, t) && !Takes(t, l)
    ensures GoodShape(c, k) && CanWork(c, plan, k, t)
  {
    hide Inv, ApiGood, ConsGood, LayerGood, Others;
    CallMovedInv(c, plan, g, l, k);
    SameOthers(c, g.s.m, CallerOf(l), -1);
    OthersCanWork(c, plan, g, k, CallerOf(l), -1, t);
  }

  /** A step of somebody else leaves a thread that can work able to work. */
  lemma StepCanWork(c: Cfg, plan: seq<Task>, g: Good, l: Label, k: Good, t: Thread)
    requires ValidPlan(c, plan) && GoodInv(c, plan, g) && GoodStep(c, plan, g, l, k)
    requires CanWork(c, plan, g, t) && !Takes(t, l)
    ensures GoodShape(c, k) && CanWork(c, plan, k, t)
  {
    hide GoodInv, CanWork, Step;
    match l {
      case CallJoin(_, _, _, _) => CallCanWork(c, plan, g, l, k, t);
      case CallProducer(_, _, _) => CallCanWork(c, plan, g, l, k, t);
      case CallWait(_, _) => CallCanWork(c, plan, g, l, k, t);
      case ApiStep(r, _) => ApiStepCanWork(c, plan, g, r, k, t);
      case WriterStore(_, _, _) => WriterCanWork(c, plan, g, l, k, t);
      case ConsStep(r, _) => ConsStepCanWork(c, plan, g, r, k, t);
      case CopyRuns(r) => CopyCanWork(c, plan, g, r, k, t);
    }
  }

  // ----- the measure falls again and again

  lemma NotWaiting(c: Cfg, plan: seq<Task>, g: Good, l: Label, k: Good, t: Thread)
    requires GoodShape(c, g) && GoodStep(c, plan, g, l, k) && CanWork(c, plan, g, t) && Takes(t, l)
    ensures !Waiting(c, g, l)
  {
  }

  /** A step of a thread that can work lowers the measure. */
  lemma WorkLowers(c: Cfg, plan: seq<Task>, g: Good, l: Label, k: Good, t: Thread)
    requires ValidPlan(c, plan) && GoodInv(c, plan, g) && GoodStep(c, plan, g, l, k)
    requires CanWork(c, plan, g, t) && Takes(t, l)
    ensures GoodShape(c, k) && Left(c, plan, k) < Left(c, plan, g)
  {
    hide Inv, CanWork;
    GoodStepProgress(c, plan, g, l, k);
    NotWaiting(c, plan, g, l, k, t);
  }

  lemma WorkerOf(c: Cfg, plan: seq<Task>, g: Good, l: Label, k: Good) returns (t: Thread)
    requires GoodInv(c, plan, g) && GoodStep(c, plan, g, l, k) && !Waiting(c, g, l)
    ensures CanWork(c, plan, g, t)
  {
    t := if l.ConsStep? then CopyThread(l.r)
         else if l.CopyRuns? then Device(l.r)
         else ApiThread(if l.CallProducer? then 0 else l.r);
  }

  /** Until the plan is finished some thread can work. */
  lemma SomebodyCanWork(c: Cfg, plan: seq<Task>, g: Good) returns (t: Thread)
    requires ValidPlan(c, plan) && GoodInv(c, plan, g) && !Finished(plan, g)
    ensures CanWork(c, plan, g, t)
  {
    hide Inv, CanWork;
    NeverStuck(c, plan, g);
    var l, k :| GoodStep(c, plan, g, l, k) && !Waiting(c, g, l);
    t := WorkerOf(c, plan, g, l, k);
  }

  /** One more step of the run: the thread worked and the measure fell, or it can still work. */
  lemma RunStep(c: Cfg, plan: seq<Task>, run: nat -> Good, labels: nat -> Label, t: Thread, n: nat)
    requires ValidPlan(c, plan) && GoodInv(c, plan, run(n)) && GoesOn(c, plan, run, labels, n)
    requires CanWork(c, plan, run(n), t)
    ensures GoodInv(c, plan, run(n + 1)) && Left(c, plan, run(n + 1)) <= Left(c, plan, run(n))
    ensures if Takes(t, labels(n)) then Left(c, plan, run(n + 1)) < Left(c, plan, run(n))
            else CanWork(c, plan, run(n + 1), t)
  {
    hide Inv, CanWork;
    GoodStepProgress(c, plan, run(n), labels(n), run(n + 1));
    if Takes(t, labels(n)) {
      WorkLowers(c, plan, run(n), labels(n), run(n + 1), t);
    } else {
      StepCanWork(c, plan, run(n), labels(n), run(n + 1), t);
    }
  }

  /** From a state with work left the measure falls by the time the thread is served. */
  lemma {:induction false} FallsBy(c: Cfg, plan: seq<Task>, run: nat -> Good, labels: nat -> Label, t: Thread,
                                   n: nat, served: nat) returns (j: nat)
    requires FairRun(c, plan, run, labels) && n <= served && Served(c, plan, run, labels, t, served)
    requires GoodInv(c, plan, run(n)) && CanWork(c, plan, run(n), t)
    ensures GoodInv(c, plan, run(j)) && Left(c, plan, run(j)) < Left(c, plan, run(n))
    decreases served - n
  {
    hide Inv, GoodStep, GoodInit, Left, Runnable;
    assert GoesOn(c, plan, run, labels, n);
    RunStep(c, plan, run, labels, t, n);
    if Takes(t, labels(n)) {
      j := n + 1;
    } else {
      j := FallsBy(c, plan, run, labels, t, n + 1, served);
    }
  }

  lemma {:induction false} FinishesFrom(c: Cfg, plan: seq<Task>, run: nat -> Good, labels: nat -> Label, i: nat)
    returns (j: nat)
    requires FairRun(c, plan, run, labels) && GoodInv(c, plan, run(i))
    ensures Finished(plan, run(j))
    decreases Left(c, plan, run(i))
  {
    hide Inv, GoodStep, GoodInit, CanWork;
    if Finished(plan, run(i)) {
      j := i;
    } else {
      var t := SomebodyCanWork(c, plan, run(i));
      assert ServedFrom(c, plan, run, labels, t, i);
      var served: nat :| i <= served && Served(c, plan, run, labels, t, served);
      var next := FallsBy(c, plan, run, labels, t, i, served);
      j := FinishesFrom(c, plan, run, labels, next);
    }
  }

  /** Under the intended use and fair scheduling every rank returns from every layer of the plan. */
  lemma FairRunFinishes(c: Cfg, plan: seq<Task>, run: nat -> Good, labels: nat -> Label) returns (j: nat)
    requires FairRun(c, plan, run, labels)
    ensures Finished(plan, run(j))
  {
    FairRunInv(c, plan, run, labels, 0);
    j := FinishesFrom(c, plan, run, labels, 0);
  }
}
