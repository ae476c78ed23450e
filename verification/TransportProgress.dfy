/**
 Progress of the transport under the intended use: every rank works through the same plan of layers with increasing
 epochs (join, run_producer on rank zero, wait), no copy fails, no timeout fires, and the writer callback returns.
 No failure is then reachable, a natural-number measure falls at every step that is not a poll of an unmet condition,
 and until every rank has finished the plan some measure-lowering step is enabled.
 */
module TransportProgress {
  import opened TransportModel
  import opened TransportInvariant
  import opened TransportLatch
  import opened TransportProofs
  import PoisonLatch

  datatype Task = Task(e: nat, L: int, n: nat)

  ghost predicate ValidPlan(c: Cfg, plan: seq<Task>) {
    && (forall i | 0 <= i < |plan| :: ValidArguments(c, plan[i].e, plan[i].L, plan[i].n))
    && (forall i, j | 0 <= i < j < |plan| :: plan[i].e < plan[j].e)
  }

  datatype Call = DoJoin | DoRun | DoWait

  /** A rank's caller: layers finished, and the call it is making or makes next. */
  datatype Driver = Driver(at: nat, next: Call)

  /** The system with its callers; begun counts the layers rank zero has begun, done those each copy thread has
      finished. */
  datatype Good = Good(s: State, drivers: seq<Driver>, begun: nat, done: seq<nat>)

  /** The epoch of the k-th layer of the plan, zero before the first. */
  function Epoch(plan: seq<Task>, k: nat): nat {
    if 0 < k <= |plan| then plan[k - 1].e else 0
  }

  function Joined(d: Driver): nat {
    if d.next.DoJoin? then d.at else d.at + 1
  }

  function Advance(r: nat, d: Driver): Driver {
    match d.next
    case DoJoin => Driver(d.at, if r == 0 then DoRun else DoWait)
    case DoRun => Driver(d.at, DoWait)
    case DoWait => Driver(d.at + 1, DoJoin)
  }

  // ----- good steps

  ghost predicate GoodShape(c: Cfg, g: Good) {
    StateShape(c, g.s) && |g.drivers| == |g.done| == c.ranks
  }

  predicate Planned(c: Cfg, plan: seq<Task>, g: Good, l: Label)
    requires |g.drivers| == c.ranks
  {
    match l
    case CallJoin(r, e, L, n) =>
      r < c.ranks && g.drivers[r].at < |plan| && g.drivers[r].next.DoJoin?
      && e == plan[g.drivers[r].at].e && L == plan[g.drivers[r].at].L && n == plan[g.drivers[r].at].n
    case CallProducer(e, L, n) =>
      g.drivers[0].at < |plan| && g.drivers[0].next.DoRun?
      && e == plan[g.drivers[0].at].e && L == plan[g.drivers[0].at].L && n == plan[g.drivers[0].at].n
    case CallWait(r, e) =>
      r < c.ranks && g.drivers[r].at < |plan| && g.drivers[r].next.DoWait? && e == plan[g.drivers[r].at].e
    case CallClose(_) => false
    case FailEnds(_) => false
    case Construct(_) => false
    case LoadSequence(_) => false
    case StartThread(_) => false
    case ApiStep(_, timeout) => !timeout
    case WriterStore(_, _, _) => true
    case WriterThrow => false
    case ConsStep(_, fault) => fault.NoFault?
    case CopyRuns(_) => true
    case LatchStep(_) => false
  }

  ghost predicate GoodStep(c: Cfg, plan: seq<Task>, g: Good, l: Label, k: Good)
    requires GoodShape(c, g)
  {
    && Planned(c, plan, g, l) && Step(c, g.s, l, k.s)
    && (if l.ApiStep? then
          && k.drivers == (if k.s.api[l.r].Ready? then g.drivers[l.r := Advance(l.r, g.drivers[l.r])] else g.drivers)
          && k.begun == (if g.s.api[l.r].InJoin? && g.s.api[l.r].join.JoinPublish? then g.begun + 1 else g.begun)
          && k.done == g.done
        else if l.ConsStep? then
          && k.drivers == g.drivers && k.begun == g.begun
          && k.done == (if g.s.cons[l.r].pc.CDone? then g.done[l.r := g.done[l.r] + 1] else g.done)
        else k == g.(s := k.s))
  }

  ghost predicate GoodInit(c: Cfg, g: Good) {
    && Init(c, g.s) && g.drivers == seq(c.ranks, _ => Driver(0, DoJoin)) && g.begun == 0 && g.done == Zeros(c.ranks)
  }

  // ----- invariant

  /** The active layer is the last one begun from the plan. */
  ghost predicate LayerGood(c: Cfg, plan: seq<Task>, m: Mem, begun: nat) {
    && begun <= |plan|
    && m.active == Epoch(plan, begun)
    && (begun > 0 ==>
      && m.h.prev == Epoch(plan, begun - 1)
      && m.h.id == plan[begun - 1].L && m.h.count == plan[begun - 1].n)
  }

  ghost predicate JoinGood(plan: seq<Task>, at: nat, pc: JoinPc) {
    at < |plan| && pc.e == plan[at].e && (!pc.JoinStore? ==> pc.L == plan[at].L && pc.n == plan[at].n)
  }

  ghost predicate ProducerGood(plan: seq<Task>, at: nat, pc: ProdPc) {
    && at < |plan| && pc.e == plan[at].e && pc.n == plan[at].n
    && (pc.ProdActive? || pc.ProdLayer? || pc.ProdCount? || pc.ProdJoin? ==> pc.L == plan[at].L)
  }

  ghost predicate PcGood(plan: seq<Task>, r: nat, d: Driver, pc: Api) {
    match pc
    case Ready => true
    case InJoin(join) => d.next.DoJoin? && JoinGood(plan, d.at, join)
    case InProducer(prod) => r == 0 && d.next.DoRun? && ProducerGood(plan, d.at, prod)
    case InWait(wait) => d.next.DoWait? && d.at < |plan| && wait.e == plan[d.at].e
    case _ => false
  }

  ghost predicate ApiGood(c: Cfg, plan: seq<Task>, m: Mem, begun: nat, r: nat, d: Driver, pc: Api)
    requires Shape(c, m) && r < c.ranks
  {
    && d.at <= begun && Joined(d) <= begun
    && (!d.next.DoJoin? ==> d.at < |plan|)
    && (d.next.DoRun? ==> r == 0)
    && m.waitReturned[r] == Epoch(plan, d.at)
    && m.joinEpoch[r] == Epoch(plan, Joined(d))
    && PcGood(plan, r, d, pc)
    && (r == 0 ==>
      && begun == (if d.next.DoJoin? && !(pc.InJoin? && pc.join.JoinStore?) then d.at else d.at + 1)
      && (d.next.DoRun? && (pc.Ready? || pc.prod.ProdActive?) ==> !m.h.ran)
      && (d.next.DoWait? ==> m.h.ran)
      && (d.next.DoJoin? && begun == d.at + 1 ==> !m.h.ran))
  }

  ghost predicate ConsGood(c: Cfg, plan: seq<Task>, m: Mem, begun: nat, r: nat, done: nat, k: Cons)
    requires Shape(c, m) && r < c.ranks
  {
    && done <= begun && m.consumerDone[r] == Epoch(plan, done) && !m.stopping[r]
    && !k.pc.CStart? && !k.pc.CCatch? && !k.pc.CGone?
  }

  ghost predicate GoodInv(c: Cfg, plan: seq<Task>, g: Good) {
    && GoodShape(c, g) && Inv(c, g.s) && g.s.latch == PoisonLatch.INITIAL
    && LayerGood(c, plan, g.s.m, g.begun)
    && (forall r | 0 <= r < c.ranks :: ApiGood(c, plan, g.s.m, g.begun, r, g.drivers[r], g.s.api[r]))
    && (forall r | 0 <= r < c.ranks :: ConsGood(c, plan, g.s.m, g.begun, r, g.done[r], g.s.cons[r]))
  }

  lemma GoodInitInv(c: Cfg, plan: seq<Task>, g: Good)
    requires GoodInit(c, g)
    ensures GoodInv(c, plan, g)
  {
    InitInv(c, g.s);
  }

  lemma EpochOrder(c: Cfg, plan: seq<Task>, i: nat, j: nat)
    requires ValidPlan(c, plan) && i <= |plan| && j <= |plan|
    ensures Epoch(plan, i) < Epoch(plan, j) <==> i < j
    ensures Epoch(plan, i) == Epoch(plan, j) <==> i == j
  {
  }

  /** A rank is in the active layer or at the end of the one before. */
  lemma AtMostOneBehind(c: Cfg, plan: seq<Task>, m: Mem, begun: nat, r: nat, d: Driver, pc: Api)
    requires Shape(c, m) && Chain(c, m) && ValidPlan(c, plan) && LayerGood(c, plan, m, begun) && r < c.ranks
    requires ApiGood(c, plan, m, begun, r, d, pc)
    ensures begun <= d.at + 1
  {
    if begun > 0 {
      EpochOrder(c, plan, d.at, begun);
      EpochOrder(c, plan, d.at, begun - 1);
      assert InPair(m.h, m.active, m.waitReturned[r]);
    }
  }

  // ----- good steps keep the invariant and cannot fail

  /** Where the callers stand after a step of rank r's API thread. */
  function BegunAfter(begun: nat, pc: Api): nat {
    if pc.InJoin? && pc.join.JoinPublish? then begun + 1 else begun
  }

  /** The system after a step of rank r's API thread that poisons nothing. */
  ghost function AfterApi(c: Cfg, g: Good, r: nat): Good
    requires GoodShape(c, g) && r < c.ranks && !Resting(g.s.api[r])
  {
    var pc := g.s.api[r];
    var act := ApiAct(c, g.s.m, false, r, pc, false);
    Good(State(act.m, g.s.api[r := act.pc], g.s.cons, g.s.latch),
         if act.pc.Ready? then g.drivers[r := Advance(r, g.drivers[r])] else g.drivers,
         BegunAfter(g.begun, pc), g.done)
  }

  lemma ApiStepIs(c: Cfg, plan: seq<Task>, g: Good, r: nat, k: Good)
    requires GoodShape(c, g) && GoodStep(c, plan, g, ApiStep(r, false), k) && !Poisoned(g.s)
    requires r < c.ranks && !Resting(g.s.api[r]) ==> ApiAct(c, g.s.m, false, r, g.s.api[r], false).poison.None?
    ensures r < c.ranks && !Resting(g.s.api[r]) && k == AfterApi(c, g, r)
  {
  }

  lemma ApiTakes(c: Cfg, plan: seq<Task>, g: Good, r: nat)
    requires GoodShape(c, g) && r < c.ranks && !Resting(g.s.api[r]) && !Poisoned(g.s)
    requires ApiAct(c, g.s.m, false, r, g.s.api[r], false).poison.None?
    ensures GoodStep(c, plan, g, ApiStep(r, false), AfterApi(c, g, r))
  {
  }

  ghost function AfterCons(c: Cfg, g: Good, r: nat): Good
    requires GoodShape(c, g) && r < c.ranks
  {
    var out := ConsAct(c, g.s.m, false, r, g.s.cons[r], NoFault);
    Good(State(out.m, g.s.api, g.s.cons[r := out.k], g.s.latch), g.drivers, g.begun,
         if g.s.cons[r].pc.CDone? then g.done[r := g.done[r] + 1] else g.done)
  }

  lemma ConsStepIs(c: Cfg, plan: seq<Task>, g: Good, r: nat, k: Good)
    requires GoodShape(c, g) && GoodStep(c, plan, g, ConsStep(r, NoFault), k) && !Poisoned(g.s)
    requires r < c.ranks ==> ConsAct(c, g.s.m, false, r, g.s.cons[r], NoFault).poison.None?
    ensures r < c.ranks && k == AfterCons(c, g, r)
  {
  }

  lemma ConsTakes(c: Cfg, plan: seq<Task>, g: Good, r: nat)
    requires GoodShape(c, g) && r < c.ranks && !Poisoned(g.s)
    requires ConsAct(c, g.s.m, false, r, g.s.cons[r], NoFault).poison.None?
    ensures GoodStep(c, plan, g, ConsStep(r, NoFault), AfterCons(c, g, r))
  {
  }

  function DriverAfter(r: nat, d: Driver, pc: Api): Driver {
    if pc.Ready? then Advance(r, d) else d
  }

  ghost predicate ApiStepGood(c: Cfg, plan: seq<Task>, m: Mem, begun: nat, r: nat, d: Driver, pc: Api, act: Act)
    requires Shape(c, m) && r < c.ranks && Shape(c, act.m)
  {
    && act.poison.None? && act.m.stopping == m.stopping && act.m.stream == m.stream
    && act.m.consumerDone == m.consumerDone
    && LayerGood(c, plan, act.m, BegunAfter(begun, pc))
    && ApiGood(c, plan, act.m, BegunAfter(begun, pc), r, DriverAfter(r, d, act.pc), act.pc)
  }

  lemma JoinBarrierGood(c: Cfg, plan: seq<Task>, m: Mem, begun: nat, r: nat, d: Driver, pc: JoinPc)
    requires ValidPlan(c, plan) && Shape(c, m) && Chain(c, m) && Cells(c, m) && r < c.ranks && JoinOk(c, m, r, pc)
    requires LayerGood(c, plan, m, begun) && ApiGood(c, plan, m, begun, r, d, InJoin(pc))
    requires pc.JoinBarrier?
    ensures var act := JoinAct(c, m, false, r, pc, false);
      Shape(c, act.m) && ApiStepGood(c, plan, m, begun, r, d, InJoin(pc), act)
  {
    hide Cells, ValidPlan;
    AtMostOneBehind(c, plan, m, begun, r, d, InJoin(pc));
    EpochOrder(c, plan, d.at, d.at + 1);
    EpochOrder(c, plan, begun, d.at + 1);
    EpochOrder(c, plan, begun, d.at);
  }

  lemma JoinFollowGood(c: Cfg, plan: seq<Task>, m: Mem, begun: nat, r: nat, d: Driver, pc: JoinPc)
    requires ValidPlan(c, plan) && Shape(c, m) && Chain(c, m) && Cells(c, m) && r < c.ranks && JoinOk(c, m, r, pc)
    requires LayerGood(c, plan, m, begun) && ApiGood(c, plan, m, begun, r, d, InJoin(pc))
    requires pc.JoinFollow?
    ensures var act := JoinAct(c, m, false, r, pc, false);
      Shape(c, act.m) && ApiStepGood(c, plan, m, begun, r, d, InJoin(pc), act)
  {
    hide Cells, ValidPlan;
    AtMostOneBehind(c, plan, m, begun, r, d, InJoin(pc));
    EpochOrder(c, plan, d.at, d.at + 1);
    EpochOrder(c, plan, begun, d.at + 1);
    EpochOrder(c, plan, begun, d.at);
  }

  lemma JoinEntersGood(c: Cfg, plan: seq<Task>, m: Mem, begun: nat, r: nat, d: Driver, pc: JoinPc)
    requires ValidPlan(c, plan) && Shape(c, m) && Chain(c, m) && r < c.ranks && JoinOk(c, m, r, pc) && pc.JoinEntry?
    requires LayerGood(c, plan, m, begun) && ApiGood(c, plan, m, begun, r, d, InJoin(pc))
    ensures var act := JoinAct(c, m, false, r, pc, false);
      Shape(c, act.m) && ApiStepGood(c, plan, m, begun, r, d, InJoin(pc), act)
  {
    EpochOrder(c, plan, begun, d.at + 1);
  }

  lemma JoinOpensGood(c: Cfg, plan: seq<Task>, m: Mem, begun: nat, r: nat, d: Driver, pc: JoinPc)
    requires ValidPlan(c, plan) && Shape(c, m) && Chain(c, m) && r < c.ranks && JoinOk(c, m, r, pc) && pc.JoinPublish?
    requires LayerGood(c, plan, m, begun) && ApiGood(c, plan, m, begun, r, d, InJoin(pc))
    ensures var act := JoinAct(c, m, false, r, pc, false);
      Shape(c, act.m) && ApiStepGood(c, plan, m, begun, r, d, InJoin(pc), act)
  {
  }

  lemma JoinChecksGood(c: Cfg, plan: seq<Task>, m: Mem, begun: nat, r: nat, d: Driver, pc: JoinPc)
    requires ValidPlan(c, plan) && Shape(c, m) && Chain(c, m) && Cells(c, m) && r < c.ranks && JoinOk(c, m, r, pc)
    requires LayerGood(c, plan, m, begun) && ApiGood(c, plan, m, begun, r, d, InJoin(pc))
    requires pc.JoinCheckLayer? || pc.JoinCheckCount? || pc.JoinStore?
    ensures var act := JoinAct(c, m, false, r, pc, false);
      Shape(c, act.m) && ApiStepGood(c, plan, m, begun, r, d, InJoin(pc), act)
  {
    AtMostOneBehind(c, plan, m, begun, r, d, InJoin(pc));
    EpochOrder(c, plan, d.at, d.at + 1);
    EpochOrder(c, plan, begun, d.at + 1);
    EpochOrder(c, plan, begun, d.at);
  }

  lemma JoinRewritesGood(c: Cfg, plan: seq<Task>, m: Mem, begun: nat, r: nat, d: Driver, pc: JoinPc)
    requires Shape(c, m) && r < c.ranks && JoinOk(c, m, r, pc)
    requires LayerGood(c, plan, m, begun) && ApiGood(c, plan, m, begun, r, d, InJoin(pc))
    requires pc.JoinLayer? || pc.JoinCount? || pc.JoinBytes?
    ensures var act := JoinAct(c, m, false, r, pc, false);
      Shape(c, act.m) && ApiStepGood(c, plan, m, begun, r, d, InJoin(pc), act)
  {
    hide Quiet, Epoch;
  }

  lemma JoinStepGood(c: Cfg, plan: seq<Task>, m: Mem, begun: nat, r: nat, d: Driver, pc: JoinPc)
    requires ValidPlan(c, plan) && Shape(c, m) && Chain(c, m) && Cells(c, m) && r < c.ranks && JoinOk(c, m, r, pc)
    requires LayerGood(c, plan, m, begun) && ApiGood(c, plan, m, begun, r, d, InJoin(pc))
    ensures var act := JoinAct(c, m, false, r, pc, false);
      Shape(c, act.m) && ApiStepGood(c, plan, m, begun, r, d, InJoin(pc), act)
  {
    hide JoinOk, ApiGood, Chain, Cells, LayerGood, ApiStepGood, ValidPlan;
    if pc.JoinBarrier? {
      JoinBarrierGood(c, plan, m, begun, r, d, pc);
    } else if pc.JoinFollow? {
      JoinFollowGood(c, plan, m, begun, r, d, pc);
    } else if pc.JoinEntry? {
      JoinEntersGood(c, plan, m, begun, r, d, pc);
    } else if pc.JoinPublish? {
      JoinOpensGood(c, plan, m, begun, r, d, pc);
    } else if pc.JoinLayer? || pc.JoinCount? || pc.JoinBytes? {
      JoinRewritesGood(c, plan, m, begun, r, d, pc);
    } else {
      JoinChecksGood(c, plan, m, begun, r, d, pc);
    }
  }

  lemma ProducerEntersGood(c: Cfg, plan: seq<Task>, m: Mem, begun: nat, d: Driver, pc: ProdPc)
    requires ValidPlan(c, plan) && Shape(c, m) && Chain(c, m) && Cells(c, m)
    requires ProdShape(c, pc) && ProducerOk(c, m, pc)
    requires LayerGood(c, plan, m, begun) && ApiGood(c, plan, m, begun, 0, d, InProducer(pc))
    requires !InLoop(pc)
    ensures var act := ProducerAct(c, m, false, pc, false);
      Shape(c, act.m) && ApiStepGood(c, plan, m, begun, 0, d, InProducer(pc), act)
  {
    hide ValidPlan, Chain;
  }

  lemma ProducerWritingGood(c: Cfg, plan: seq<Task>, m: Mem, begun: nat, d: Driver, pc: ProdPc)
    requires ValidPlan(c, plan) && Shape(c, m) && Chain(c, m) && Cells(c, m)
    requires ProdShape(c, pc) && ProducerOk(c, m, pc)
    requires LayerGood(c, plan, m, begun) && ApiGood(c, plan, m, begun, 0, d, InProducer(pc))
    requires IsWriting(pc)
    ensures var act := ProducerAct(c, m, false, pc, false);
      Shape(c, act.m) && ApiStepGood(c, plan, m, begun, 0, d, InProducer(pc), act)
  {
    hide Chain, ValidPlan, Epoch, Cells, ProducerOk;
  }

  lemma ProducerPollsGood(c: Cfg, plan: seq<Task>, m: Mem, begun: nat, d: Driver, pc: ProdPc)
    requires ValidPlan(c, plan) && Shape(c, m) && Chain(c, m) && Cells(c, m)
    requires ProdShape(c, pc) && ProducerOk(c, m, pc)
    requires LayerGood(c, plan, m, begun) && ApiGood(c, plan, m, begun, 0, d, InProducer(pc))
    requires pc.ProdAck? || pc.ProdDrain?
    ensures var act := ProducerAct(c, m, false, pc, false);
      Shape(c, act.m) && ApiStepGood(c, plan, m, begun, 0, d, InProducer(pc), act)
  {
    hide Chain, ValidPlan, Epoch, Cells, ProducerOk;
  }

  lemma ProducerGoesOnGood(c: Cfg, plan: seq<Task>, m: Mem, begun: nat, d: Driver, pc: ProdPc)
    requires ValidPlan(c, plan) && Shape(c, m) && Chain(c, m) && Cells(c, m)
    requires ProdShape(c, pc) && ProducerOk(c, m, pc)
    requires LayerGood(c, plan, m, begun) && ApiGood(c, plan, m, begun, 0, d, InProducer(pc))
    requires pc.ProdLoop? || pc.ProdNextDrain?
    ensures var act := ProducerAct(c, m, false, pc, false);
      Shape(c, act.m) && ApiStepGood(c, plan, m, begun, 0, d, InProducer(pc), act)
  {
    hide Chain, ValidPlan, Epoch, Cells, ProducerOk;
  }

  lemma ProducerStepGood(c: Cfg, plan: seq<Task>, m: Mem, begun: nat, d: Driver, pc: ProdPc)
    requires ValidPlan(c, plan) && Shape(c, m) && Chain(c, m) && Cells(c, m)
    requires ProdShape(c, pc) && ProducerOk(c, m, pc)
    requires LayerGood(c, plan, m, begun) && ApiGood(c, plan, m, begun, 0, d, InProducer(pc))
    ensures var act := ProducerAct(c, m, false, pc, false);
      Shape(c, act.m) && ApiStepGood(c, plan, m, begun, 0, d, InProducer(pc), act)
  {
    hide ApiGood, Chain, Cells, LayerGood, ApiStepGood, ValidPlan;
    if !InLoop(pc) {
      ProducerEntersGood(c, plan, m, begun, d, pc);
    } else if IsWriting(pc) {
      ProducerWritingGood(c, plan, m, begun, d, pc);
    } else if pc.ProdAck? || pc.ProdDrain? {
      ProducerPollsGood(c, plan, m, begun, d, pc);
    } else {
      ProducerGoesOnGood(c, plan, m, begun, d, pc);
    }
  }

  lemma WaitStepGood(c: Cfg, plan: seq<Task>, m: Mem, begun: nat, r: nat, d: Driver, pc: WaitPc)
    requires ValidPlan(c, plan) && Shape(c, m) && Chain(c, m) && r < c.ranks && WaitOk(c, m, r, pc)
    requires LayerGood(c, plan, m, begun) && ApiGood(c, plan, m, begun, r, d, InWait(pc))
    ensures var act := WaitAct(c, m, false, r, pc, false);
      Shape(c, act.m) && ApiStepGood(c, plan, m, begun, r, d, InWait(pc), act)
  {
  }

  /** What a step of a copy thread leaves: nothing poisoned, the layer as it was, and later layers finished. */
  ghost predicate ConsLeaves(c: Cfg, plan: seq<Task>, m: Mem, begun: nat, r: nat, later: nat, out: ConsOutcome)
    requires r < c.ranks
  {
    && Shape(c, out.m) && out.poison.None? && out.m.stopping == m.stopping
    && out.m.active == m.active && out.m.h.prev == m.h.prev && out.m.h.id == m.h.id && out.m.h.count == m.h.count
    && ConsGood(c, plan, out.m, begun, r, later, out.k)
  }

  lemma ConsIdleGood(c: Cfg, plan: seq<Task>, m: Mem, begun: nat, r: nat, done: nat, k: Cons)
    requires Shape(c, m) && Chain(c, m) && Cells(c, m) && r < c.ranks && ConsOk(c, m, r, k)
    requires ConsGood(c, plan, m, begun, r, done, k)
    requires k.pc.CTop? || k.pc.CActive? || k.pc.CIdle? || k.pc.CJoin? || k.pc.CCount?
    ensures ConsLeaves(c, plan, m, begun, r, done, ConsAct(c, m, false, r, k, NoFault))
  {
  }

  lemma ConsPollGood(c: Cfg, plan: seq<Task>, m: Mem, begun: nat, r: nat, done: nat, k: Cons)
    requires Shape(c, m) && r < c.ranks && ConsOk(c, m, r, k) && ConsGood(c, plan, m, begun, r, done, k) && k.pc.CPoll?
    ensures ConsLeaves(c, plan, m, begun, r, done, ConsAct(c, m, false, r, k, NoFault))
  {
  }

  lemma ConsCopyGood(c: Cfg, plan: seq<Task>, m: Mem, begun: nat, r: nat, done: nat, k: Cons)
    requires Shape(c, m) && r < c.ranks && ConsOk(c, m, r, k) && ConsGood(c, plan, m, begun, r, done, k)
    requires k.pc.CIssue? || k.pc.CEvent?
    ensures ConsLeaves(c, plan, m, begun, r, done, ConsAct(c, m, false, r, k, NoFault))
  {
  }

  lemma ConsAckGood(c: Cfg, plan: seq<Task>, m: Mem, begun: nat, r: nat, done: nat, k: Cons)
    requires Shape(c, m) && r < c.ranks && ConsOk(c, m, r, k) && ConsGood(c, plan, m, begun, r, done, k)
    requires k.pc.CAck? || k.pc.CBytes?
    ensures ConsLeaves(c, plan, m, begun, r, done, ConsAct(c, m, false, r, k, NoFault))
  {
  }

  lemma ConsDoneGood(c: Cfg, plan: seq<Task>, m: Mem, begun: nat, r: nat, done: nat, k: Cons)
    requires ValidPlan(c, plan) && Shape(c, m) && Chain(c, m) && r < c.ranks && ConsOk(c, m, r, k) && k.pc.CDone?
    requires LayerGood(c, plan, m, begun) && ConsGood(c, plan, m, begun, r, done, k)
    ensures ConsLeaves(c, plan, m, begun, r, done + 1, ConsAct(c, m, false, r, k, NoFault))
  {
    EpochOrder(c, plan, done, begun);
    if begun > 0 {
      EpochOrder(c, plan, done, begun - 1);
    }
  }

  /** Layers finished by a copy thread after a step at the program point. */
  function DoneAfter(done: nat, pc: ConsPc): nat {
    if pc.CDone? then done + 1 else done
  }

  lemma ConsStepGood(c: Cfg, plan: seq<Task>, m: Mem, begun: nat, r: nat, done: nat, k: Cons)
    requires ValidPlan(c, plan) && Shape(c, m) && Chain(c, m) && Cells(c, m) && r < c.ranks && ConsOk(c, m, r, k)
    requires LayerGood(c, plan, m, begun) && ConsGood(c, plan, m, begun, r, done, k)
    ensures ConsLeaves(c, plan, m, begun, r, DoneAfter(done, k.pc), ConsAct(c, m, false, r, k, NoFault))
  {
    match k.pc {
      case CPoll(_, _, _, _, _) => ConsPollGood(c, plan, m, begun, r, done, k);
      case CIssue(_, _, _, _, _, _) => ConsCopyGood(c, plan, m, begun, r, done, k);
      case CEvent(_, _, _, _, _, _) => ConsCopyGood(c, plan, m, begun, r, done, k);
      case CAck(_, _, _, _, _) => ConsAckGood(c, plan, m, begun, r, done, k);
      case CBytes(_, _) => ConsAckGood(c, plan, m, begun, r, done, k);
      case CDone(_) => ConsDoneGood(c, plan, m, begun, r, done, k);
      case _ => ConsIdleGood(c, plan, m, begun, r, done, k);
    }
  }

  // ----- the measure

  /** k times w, by repeated addition. */
  function Times(k: nat, w: nat): nat {
    if k == 0 then 0 else w + Times(k - 1, w)
  }

  /** Steps left in a wait_until whose condition holds; one more than any of them while it does not. */
  function PollLeft(c: Cfg, poll: Poll, ready: bool): (left: nat)
    ensures left <= c.ranks + 4
  {
    if !ready then c.ranks + 4
    else match poll
      case Retry => c.ranks + 3
      case Scan(i) => if i <= c.ranks then c.ranks + 2 - i else 1
      case Confirm => 0
  }

  function PollWeight(c: Cfg): nat {
    c.ranks + 5
  }

  ghost predicate JoinReady(c: Cfg, m: Mem, pc: JoinPc)
    requires Shape(c, m)
  {
    match pc
    case JoinBarrier(_, _, _, prev, _) => forall j | 0 <= j < c.ranks :: m.waitReturned[j] >= prev
    case JoinFollow(e, _, _, _) => m.active == e
    case _ => true
  }

  ghost predicate ProducerReady(c: Cfg, m: Mem, pc: ProdPc)
    requires Shape(c, m) && ProdShape(c, pc)
  {
    match pc
    case ProdBarrier(e, _, _) => forall j | 0 <= j < c.ranks :: m.joinEpoch[j] == e
    case ProdAck(_, _, x, sent, _) => forall j | 0 <= j < c.ranks :: m.ack[j][c.SlotOf(x)] >= sent[c.SlotOf(x)]
    case ProdDrain(_, _, sent, slot, _) => forall j | 0 <= j < c.ranks :: m.ack[j][slot] >= sent[slot]
    case _ => true
  }

  predicate WaitReady(c: Cfg, m: Mem, r: nat, pc: WaitPc)
    requires Shape(c, m) && r < c.ranks
  {
    pc.WaitPoll? ==> m.consumerDone[r] >= pc.e && m.producerDone >= pc.e
  }

  function WaitCost(c: Cfg): nat {
    7 + PollWeight(c)
  }

  ghost function WaitLeft(c: Cfg, m: Mem, r: nat, pc: WaitPc): nat
    requires Shape(c, m) && r < c.ranks
  {
    match pc
    case WaitJoin(_) => 5 + PollWeight(c)
    case WaitPoll(_, poll) => 5 + PollLeft(c, poll, WaitReady(c, m, r, pc))
    case WaitLayer(_) => 4
    case WaitCount(_, _) => 3
    case WaitBytes(_, _, _) => 2
    case WaitStore(_, _, _, _) => 1
  }

  function SlotCost(c: Cfg): nat {
    PollWeight(c) + 2
  }

  function ExpertCost(c: Cfg): nat {
    PollWeight(c) + 8
  }

  function DrainCost(c: Cfg): nat {
    WaitCost(c) + 2 + Times(c.slots, SlotCost(c))
  }

  function RunCost(c: Cfg, n: nat): nat {
    DrainCost(c) + Times(n, ExpertCost(c)) + PollWeight(c) + 6
  }

  ghost function ProducerLeft(c: Cfg, m: Mem, pc: ProdPc): nat
    requires Shape(c, m) && ProdShape(c, pc)
  {
    var polls := DrainCost(c) + Times(pc.n, ExpertCost(c)) + 1;
    match pc
    case ProdActive(_, _, n) => polls + PollWeight(c) + 3
    case ProdLayer(_, _, n) => polls + PollWeight(c) + 2
    case ProdCount(_, _, n) => polls + PollWeight(c) + 1
    case ProdJoin(_, _, n) => polls + PollWeight(c)
    case ProdBarrier(_, n, poll) => polls + PollLeft(c, poll, ProducerReady(c, m, pc))
    case ProdLoop(_, n, x, _) => DrainCost(c) + (if x < n then Times(n - x, ExpertCost(c)) else 0)
    case ProdAck(_, n, x, _, poll) =>
      DrainCost(c) + (if x < n then Times(n - x - 1, ExpertCost(c)) else 0)
      + 7 + PollLeft(c, poll, ProducerReady(c, m, pc))
    case ProdWrite(_, n, x, _) => DrainCost(c) + (if x < n then Times(n - x - 1, ExpertCost(c)) else 0) + 6
    case ProdFetch(_, n, x, _) => DrainCost(c) + (if x < n then Times(n - x - 1, ExpertCost(c)) else 0) + 5
    case ProdEpoch(_, n, x, _, _) => DrainCost(c) + (if x < n then Times(n - x - 1, ExpertCost(c)) else 0) + 4
    case ProdExpert(_, n, x, _, _) => DrainCost(c) + (if x < n then Times(n - x - 1, ExpertCost(c)) else 0) + 3
    case ProdSequence(_, n, x, _, _) => DrainCost(c) + (if x < n then Times(n - x - 1, ExpertCost(c)) else 0) + 2
    case ProdNextDrain(_, _, _, slot) =>
      WaitCost(c) + 1 + (if slot < c.slots then Times(c.slots - slot, SlotCost(c)) else 0)
    case ProdDrain(_, _, _, slot, poll) =>
      WaitCost(c) + 1 + Times(c.slots - slot - 1, SlotCost(c)) + 1 + PollLeft(c, poll, ProducerReady(c, m, pc))
    case ProdDone(_, _) => WaitCost(c)
  }

  /** What is left of a layer for rank r once it has joined. */
  function AfterJoin(c: Cfg, r: nat, n: nat): nat {
    if r == 0 then RunCost(c, n) else WaitCost(c)
  }

  function LayerCost(c: Cfg, r: nat, n: nat): nat {
    AfterJoin(c, r, n) + c.ranks + 8 + PollWeight(c)
  }

  ghost function JoinLeft(c: Cfg, m: Mem, r: nat, pc: JoinPc, n: nat): nat
    requires Shape(c, m)
  {
    var base := AfterJoin(c, r, n);
    match pc
    case JoinEntry(_, _, _) => base + c.ranks + 6 + PollWeight(c)
    case JoinBarrier(_, _, _, _, poll) => base + c.ranks + 6 + PollLeft(c, poll, JoinReady(c, m, pc))
    case JoinLayer(_, _, _) => base + c.ranks + 5
    case JoinCount(_, _, _) => base + c.ranks + 4
    case JoinBytes(_, _, _, i) => base + 3 + (if i <= c.ranks then c.ranks - i else 0)
    case JoinPublish(_, _, _) => base + 2
    case JoinFollow(_, _, _, poll) => base + 4 + PollLeft(c, poll, JoinReady(c, m, pc))
    case JoinCheckLayer(_, _, _) => base + 3
    case JoinCheckCount(_, _, _) => base + 2
    case JoinStore(_) => base + 1
  }

  /** What is left of the layers from index i on, for rank r's API thread. */
  function Future(c: Cfg, plan: seq<Task>, r: nat, i: nat): nat
    decreases |plan| - i
  {
    if i >= |plan| then 0 else LayerCost(c, r, plan[i].n) + Future(c, plan, r, i + 1)
  }

  ghost function ApiLeft(c: Cfg, plan: seq<Task>, m: Mem, r: nat, d: Driver, pc: Api): nat
    requires Shape(c, m) && r < c.ranks && ApiShape(c, pc)
  {
    var n := if d.at < |plan| then plan[d.at].n else 0;
    match pc
    case InJoin(join) => Future(c, plan, r, d.at + 1) + JoinLeft(c, m, r, join, n)
    case InProducer(prod) => Future(c, plan, r, d.at + 1) + ProducerLeft(c, m, prod)
    case InWait(wait) => Future(c, plan, r, d.at + 1) + WaitLeft(c, m, r, wait)
    case _ =>
      match d.next
      case DoJoin => Future(c, plan, r, d.at)
      case DoRun => Future(c, plan, r, d.at + 1) + RunCost(c, n)
      case DoWait => Future(c, plan, r, d.at + 1) + WaitCost(c) - 1
  }

  // the copy thread

  predicate WorkToDo(c: Cfg, m: Mem, r: nat)
    requires Shape(c, m) && r < c.ranks
  {
    m.active != 0 && m.joinEpoch[r] == m.active && m.consumerDone[r] != m.active
  }

  function CopyCost(c: Cfg): nat {
    16 + 2 * c.Kinds()
  }

  function ConsLayerCost(c: Cfg, n: nat): nat {
    9 + Times(n, CopyCost(c))
  }

  function ConsFuture(c: Cfg, plan: seq<Task>, i: nat): nat
    decreases |plan| - i
  {
    if i >= |plan| then 0 else ConsLayerCost(c, plan[i].n) + ConsFuture(c, plan, i + 1)
  }

  function PublicationLeft(stage: PollStage, ready: bool): (left: nat)
    ensures left <= 6
  {
    if !ready then 6
    else match stage
      case PRetry => 5
      case PActive => 4
      case PSequence => 3
      case PEpoch(_) => 2
      case PExpert(_) => 1
      case PConfirm(_) => 0
  }

  function EventLeft(event: EventStage, ready: bool): (left: nat)
    ensures left <= 3
  {
    if !ready then 3
    else match event
      case ERetry => 2
      case EQuery => 1
      case EConfirm => 0
  }

  function IdleLeft(pc: ConsPc, ready: bool): (left: nat)
    ensures left <= 5
  {
    if !ready then 5
    else match pc
      case CIdle => 4
      case CTop => 3
      case CActive => 2
      case CJoin(_) => 1
      case _ => 0
  }

  function ConsLeft(c: Cfg, plan: seq<Task>, m: Mem, r: nat, done: nat, pc: ConsPc): nat
    requires Shape(c, m) && r < c.ranks
  {
    var after := ConsFuture(c, plan, done + 1);
    match pc
    case CPoll(_, n, x, _, stage) =>
      after + 3 + (if x < n then Times(n - x - 1, CopyCost(c)) else 0) + 8 + 2 * c.Kinds()
      + PublicationLeft(stage, x < m.h.published)
    case CIssue(_, n, x, _, _, kind) =>
      after + 3 + (if x < n then Times(n - x - 1, CopyCost(c)) else 0) + 7
      + (if kind <= c.Kinds() then 2 * (c.Kinds() - kind) else 0)
    case CEvent(_, n, x, _, _, event) =>
      after + 3 + (if x < n then Times(n - x - 1, CopyCost(c)) else 0) + 2 + EventLeft(event, m.stream[r] == [])
    case CAck(_, n, x, _, _) => after + 3 + (if x < n then Times(n - x - 1, CopyCost(c)) else 0) + 1
    case CBytes(_, _) => after + 2
    case CDone(_) => after + 1
    case CCount(_) => if done < |plan| then after + 3 + Times(plan[done].n, CopyCost(c)) else 0
    case _ =>
      if done < |plan| then after + 3 + Times(plan[done].n, CopyCost(c)) + IdleLeft(pc, WorkToDo(c, m, r)) else 0
  }

  /** Everything left for rank r: its API thread, its copy thread, its queued copies. */
  ghost function RankLeft(c: Cfg, plan: seq<Task>, g: Good, r: nat): nat
    requires GoodShape(c, g) && r < c.ranks
  {
    ApiLeft(c, plan, g.s.m, r, g.drivers[r], g.s.api[r])
    + ConsLeft(c, plan, g.s.m, r, g.done[r], g.s.cons[r].pc) + |g.s.m.stream[r]|
  }

  ghost function Total(c: Cfg, plan: seq<Task>, g: Good, ranks: nat): nat
    requires GoodShape(c, g) && ranks <= c.ranks
  {
    if ranks == 0 then 0 else Total(c, plan, g, ranks - 1) + RankLeft(c, plan, g, ranks - 1)
  }

  ghost function Left(c: Cfg, plan: seq<Task>, g: Good): nat
    requires GoodShape(c, g)
  {
    Total(c, plan, g, c.ranks)
  }

  // ----- a step lowers the measure of its own thread, unless it polls an unmet condition

  ghost predicate Lowers(c: Cfg, plan: seq<Task>, m: Mem, r: nat, d: Driver, pc: Api, ready: bool, act: Act)
    requires Shape(c, m) && r < c.ranks && ApiShape(c, pc)
  {
    Shape(c, act.m) && ApiShape(c, act.pc) && !act.pc.Failed? ==>
      var before := ApiLeft(c, plan, m, r, d, pc);
      var later := ApiLeft(c, plan, act.m, r, DriverAfter(r, d, act.pc), act.pc);
      if ready then later < before else later <= before
  }

  lemma JoinBarrierPolls(c: Cfg, plan: seq<Task>, m: Mem, begun: nat, r: nat, d: Driver, pc: JoinPc)
    requires Shape(c, m) && r < c.ranks && JoinOk(c, m, r, pc) && pc.JoinBarrier?
    requires ApiGood(c, plan, m, begun, r, d, InJoin(pc))
    ensures Lowers(c, plan, m, r, d, InJoin(pc), JoinReady(c, m, pc), JoinAct(c, m, false, r, pc, false))
  {
    hide Times, Future, AfterJoin, ApiGood, JoinOk;
  }

  lemma JoinFollowPolls(c: Cfg, plan: seq<Task>, m: Mem, begun: nat, r: nat, d: Driver, pc: JoinPc)
    requires Shape(c, m) && r < c.ranks && JoinOk(c, m, r, pc) && pc.JoinFollow?
    requires ApiGood(c, plan, m, begun, r, d, InJoin(pc))
    ensures Lowers(c, plan, m, r, d, InJoin(pc), JoinReady(c, m, pc), JoinAct(c, m, false, r, pc, false))
  {
    hide Times, Future, AfterJoin, ApiGood;
  }

  lemma JoinWalks(c: Cfg, plan: seq<Task>, m: Mem, begun: nat, r: nat, d: Driver, pc: JoinPc)
    requires Shape(c, m) && r < c.ranks && JoinOk(c, m, r, pc) && !pc.JoinBarrier? && !pc.JoinFollow?
    requires ApiGood(c, plan, m, begun, r, d, InJoin(pc))
    ensures Lowers(c, plan, m, r, d, InJoin(pc), JoinReady(c, m, pc), JoinAct(c, m, false, r, pc, false))
  {
    hide Times, Future, JoinGood, Epoch, Joined;
  }

  lemma JoinMoves(c: Cfg, plan: seq<Task>, m: Mem, begun: nat, r: nat, d: Driver, pc: JoinPc)
    requires Shape(c, m) && r < c.ranks && JoinOk(c, m, r, pc)
    requires ApiGood(c, plan, m, begun, r, d, InJoin(pc))
    ensures Lowers(c, plan, m, r, d, InJoin(pc), JoinReady(c, m, pc), JoinAct(c, m, false, r, pc, false))
  {
    hide Lowers, JoinOk, ApiGood;
    if pc.JoinBarrier? {
      JoinBarrierPolls(c, plan, m, begun, r, d, pc);
    } else if pc.JoinFollow? {
      JoinFollowPolls(c, plan, m, begun, r, d, pc);
    } else {
      JoinWalks(c, plan, m, begun, r, d, pc);
    }
  }

  lemma WaitMoves(c: Cfg, plan: seq<Task>, m: Mem, begun: nat, r: nat, d: Driver, pc: WaitPc)
    requires Shape(c, m) && r < c.ranks && WaitOk(c, m, r, pc)
    requires ApiGood(c, plan, m, begun, r, d, InWait(pc))
    ensures Lowers(c, plan, m, r, d, InWait(pc), WaitReady(c, m, r, pc), WaitAct(c, m, false, r, pc, false))
  {
    hide Times, Future, WaitOk;
  }

  lemma ProducerBarrierPolls(c: Cfg, plan: seq<Task>, m: Mem, begun: nat, d: Driver, pc: ProdPc)
    requires Shape(c, m) && ProdShape(c, pc) && ProducerOk(c, m, pc) && pc.ProdBarrier?
    requires ApiGood(c, plan, m, begun, 0, d, InProducer(pc))
    ensures Lowers(c, plan, m, 0, d, InProducer(pc), ProducerReady(c, m, pc), ProducerAct(c, m, false, pc, false))
  {
    hide Times, Future, SeqAt;
  }

  lemma ProducerChecks(c: Cfg, plan: seq<Task>, m: Mem, begun: nat, d: Driver, pc: ProdPc)
    requires Shape(c, m) && ProdShape(c, pc) && ProducerOk(c, m, pc)
    requires pc.ProdActive? || pc.ProdLayer? || pc.ProdCount? || pc.ProdJoin?
    requires ApiGood(c, plan, m, begun, 0, d, InProducer(pc))
    ensures Lowers(c, plan, m, 0, d, InProducer(pc), ProducerReady(c, m, pc), ProducerAct(c, m, false, pc, false))
  {
    hide Times, Future, SeqAt, ApiGood;
  }

  lemma ProducerPublishes(c: Cfg, plan: seq<Task>, m: Mem, begun: nat, d: Driver, pc: ProdPc)
    requires Shape(c, m) && ProdShape(c, pc) && ProducerOk(c, m, pc) && pc.ProdSequence?
    requires ApiGood(c, plan, m, begun, 0, d, InProducer(pc))
    ensures Lowers(c, plan, m, 0, d, InProducer(pc), true, ProducerAct(c, m, false, pc, false))
  {
    hide Future, SeqAt;
  }

  lemma ProducerPrepares(c: Cfg, plan: seq<Task>, m: Mem, begun: nat, d: Driver, pc: ProdPc)
    requires Shape(c, m) && ProdShape(c, pc) && ProducerOk(c, m, pc)
    requires IsWriting(pc) && !pc.ProdSequence?
    requires ApiGood(c, plan, m, begun, 0, d, InProducer(pc))
    ensures Lowers(c, plan, m, 0, d, InProducer(pc), true, ProducerAct(c, m, false, pc, false))
  {
    hide Times, ApiGood, Future, ProducerOk;
  }

  lemma ProducerChoosesNext(c: Cfg, plan: seq<Task>, m: Mem, begun: nat, d: Driver, pc: ProdPc)
    requires Shape(c, m) && ProdShape(c, pc) && ProducerOk(c, m, pc) && pc.ProdLoop?
    requires ApiGood(c, plan, m, begun, 0, d, InProducer(pc))
    ensures Lowers(c, plan, m, 0, d, InProducer(pc), ProducerReady(c, m, pc), ProducerAct(c, m, false, pc, false))
  {
    hide Future, SeqAt;
  }

  lemma ProducerAckScans(c: Cfg, plan: seq<Task>, m: Mem, begun: nat, d: Driver, pc: ProdPc)
    requires Shape(c, m) && ProdShape(c, pc) && ProducerOk(c, m, pc)
    requires pc.ProdAck? && pc.poll.Scan?
    requires ApiGood(c, plan, m, begun, 0, d, InProducer(pc))
    ensures Lowers(c, plan, m, 0, d, InProducer(pc), ProducerReady(c, m, pc), ProducerAct(c, m, false, pc, false))
  {
    hide Times, ApiGood, Future, SeqAt;
  }

  lemma ProducerAckChecks(c: Cfg, plan: seq<Task>, m: Mem, begun: nat, d: Driver, pc: ProdPc)
    requires Shape(c, m) && ProdShape(c, pc) && ProducerOk(c, m, pc)
    requires pc.ProdAck? && !pc.poll.Scan?
    requires ApiGood(c, plan, m, begun, 0, d, InProducer(pc))
    ensures Lowers(c, plan, m, 0, d, InProducer(pc), ProducerReady(c, m, pc), ProducerAct(c, m, false, pc, false))
  {
    hide Times, ApiGood, Future, SeqAt;
  }

  lemma ProducerDrains(c: Cfg, plan: seq<Task>, m: Mem, begun: nat, d: Driver, pc: ProdPc)
    requires Shape(c, m) && ProdShape(c, pc) && ProducerOk(c, m, pc) && IsDraining(pc) && !pc.ProdDrain?
    requires ApiGood(c, plan, m, begun, 0, d, InProducer(pc))
    ensures Lowers(c, plan, m, 0, d, InProducer(pc), ProducerReady(c, m, pc), ProducerAct(c, m, false, pc, false))
  {
    hide Future, SeqAt, ProducerOk;
  }

  lemma ProducerDrainScans(c: Cfg, plan: seq<Task>, m: Mem, begun: nat, d: Driver, pc: ProdPc)
    requires Shape(c, m) && ProdShape(c, pc) && ProducerOk(c, m, pc)
    requires pc.ProdDrain? && pc.poll.Scan?
    requires ApiGood(c, plan, m, begun, 0, d, InProducer(pc))
    ensures Lowers(c, plan, m, 0, d, InProducer(pc), ProducerReady(c, m, pc), ProducerAct(c, m, false, pc, false))
  {
    hide Times, ApiGood, Future, SeqAt;
  }

  lemma ProducerDrainChecks(c: Cfg, plan: seq<Task>, m: Mem, begun: nat, d: Driver, pc: ProdPc)
    requires Shape(c, m) && ProdShape(c, pc) && ProducerOk(c, m, pc)
    requires pc.ProdDrain? && !pc.poll.Scan?
    requires ApiGood(c, plan, m, begun, 0, d, InProducer(pc))
    ensures Lowers(c, plan, m, 0, d, InProducer(pc), ProducerReady(c, m, pc), ProducerAct(c, m, false, pc, false))
  {
    hide Future, SeqAt;
  }

  lemma ProducerWaits(c: Cfg, plan: seq<Task>, m: Mem, begun: nat, d: Driver, pc: ProdPc)
    requires Shape(c, m) && ProdShape(c, pc) && ProducerOk(c, m, pc) && (pc.ProdAck? || pc.ProdDrain?)
    requires ApiGood(c, plan, m, begun, 0, d, InProducer(pc))
    ensures Lowers(c, plan, m, 0, d, InProducer(pc), ProducerReady(c, m, pc), ProducerAct(c, m, false, pc, false))
  {
    hide Lowers, ProducerOk, ApiGood;
    match (pc.ProdAck?, pc.poll.Scan?) {
      case (true, true) => ProducerAckScans(c, plan, m, begun, d, pc);
      case (true, false) => ProducerAckChecks(c, plan, m, begun, d, pc);
      case (false, true) => ProducerDrainScans(c, plan, m, begun, d, pc);
      case (false, false) => ProducerDrainChecks(c, plan, m, begun, d, pc);
    }
  }

  lemma ProducerMoves(c: Cfg, plan: seq<Task>, m: Mem, begun: nat, d: Driver, pc: ProdPc)
    requires Shape(c, m) && ProdShape(c, pc) && ProducerOk(c, m, pc)
    requires ApiGood(c, plan, m, begun, 0, d, InProducer(pc))
    ensures Lowers(c, plan, m, 0, d, InProducer(pc), ProducerReady(c, m, pc), ProducerAct(c, m, false, pc, false))
  {
    hide Lowers, ProducerOk, ApiGood;
    if pc.ProdAck? || pc.ProdDrain? {
      ProducerWaits(c, plan, m, begun, d, pc);
    } else if pc.ProdSequence? {
      ProducerPublishes(c, plan, m, begun, d, pc);
    } else if IsWriting(pc) {
      ProducerPrepares(c, plan, m, begun, d, pc);
    } else if IsDraining(pc) {
      ProducerDrains(c, plan, m, begun, d, pc);
    } else if pc.ProdLoop? {
      ProducerChoosesNext(c, plan, m, begun, d, pc);
    } else if pc.ProdBarrier? {
      ProducerBarrierPolls(c, plan, m, begun, d, pc);
    } else {
      ProducerChecks(c, plan, m, begun, d, pc);
    }
  }

  /** The condition the thread is polling holds, or it is not polling. */
  ghost predicate ApiReady(c: Cfg, m: Mem, r: nat, pc: Api)
    requires Shape(c, m) && r < c.ranks && ApiShape(c, pc)
  {
    match pc
    case InJoin(join) => JoinReady(c, m, join)
    case InProducer(prod) => ProducerReady(c, m, prod)
    case InWait(wait) => WaitReady(c, m, r, wait)
    case _ => true
  }

  predicate ConsReady(c: Cfg, m: Mem, r: nat, pc: ConsPc)
    requires Shape(c, m) && r < c.ranks
  {
    match pc
    case CPoll(_, _, x, _, _) => x < m.h.published
    case CEvent(_, _, _, _, _, _) => m.stream[r] == []
    case CTop => WorkToDo(c, m, r)
    case CActive => WorkToDo(c, m, r)
    case CIdle => WorkToDo(c, m, r)
    case CJoin(_) => WorkToDo(c, m, r)
    case _ => true
  }

  lemma {:induction false} ConsIdles(c: Cfg, plan: seq<Task>, m: Mem, begun: nat, r: nat, done: nat, k: Cons)
    requires ValidPlan(c, plan) && Shape(c, m) && Chain(c, m) && Cells(c, m) && r < c.ranks && ConsOk(c, m, r, k)
    requires LayerGood(c, plan, m, begun) && ConsGood(c, plan, m, begun, r, done, k)
    requires k.pc.CTop? || k.pc.CActive? || k.pc.CIdle? || k.pc.CJoin? || k.pc.CCount?
    ensures var out := ConsAct(c, m, false, r, k, NoFault);
      && out.m == m
      && var before := ConsLeft(c, plan, m, r, done, k.pc);
      var later := ConsLeft(c, plan, m, r, done, out.k.pc);
      if ConsReady(c, m, r, k.pc) then later < before else later <= before
  {
    EpochOrder(c, plan, done, begun);
    if begun > 0 {
      EpochOrder(c, plan, done, begun - 1);
    }
    assert InPair(m.h, m.active, m.consumerDone[r]);
  }

  ghost predicate CopyLowers(c: Cfg, plan: seq<Task>, m: Mem, r: nat, done: nat, k: Cons)
    requires Shape(c, m) && r < c.ranks && ConsShape(c, k)
  {
    var out := ConsAct(c, m, false, r, k, NoFault);
    Shape(c, out.m) && !out.k.pc.CCatch? ==>
      var before := ConsLeft(c, plan, m, r, done, k.pc) + |m.stream[r]|;
      var later := ConsLeft(c, plan, out.m, r, done, out.k.pc) + |out.m.stream[r]|;
      if ConsReady(c, m, r, k.pc) then later < before else later <= before
  }

  lemma ConsPollsReady(c: Cfg, plan: seq<Task>, m: Mem, r: nat, done: nat, k: Cons)
    requires Shape(c, m) && r < c.ranks && ConsOk(c, m, r, k) && k.pc.CPoll? && k.pc.x < m.h.published
    requires m.readySequence[c.SlotOf(k.pc.x)] != m.ack[r][c.SlotOf(k.pc.x)] && InSlot(c, m, k.pc.x)
    ensures CopyLowers(c, plan, m, r, done, k)
  {
    hide Times, SeqAt, ConsFuture;
  }

  lemma ConsPollsIdly(c: Cfg, plan: seq<Task>, m: Mem, r: nat, done: nat, k: Cons)
    requires Shape(c, m) && r < c.ranks && ConsOk(c, m, r, k) && k.pc.CPoll? && k.pc.x >= m.h.published
    ensures CopyLowers(c, plan, m, r, done, k)
  {
  }

  lemma ConsPolls(c: Cfg, plan: seq<Task>, m: Mem, r: nat, done: nat, k: Cons)
    requires Shape(c, m) && Counters(c, m) && Publications(c, m) && r < c.ranks && ConsOk(c, m, r, k) && k.pc.CPoll?
    ensures CopyLowers(c, plan, m, r, done, k)
  {
    hide CopyLowers;
    if m.h.acked[r] < m.h.published {
      NewSequence(c, m, r);
      ConsPollsReady(c, plan, m, r, done, k);
    } else {
      ConsPollsIdly(c, plan, m, r, done, k);
    }
  }

  lemma ConsIssues(c: Cfg, plan: seq<Task>, m: Mem, r: nat, done: nat, k: Cons)
    requires Shape(c, m) && r < c.ranks && ConsOk(c, m, r, k) && k.pc.CIssue?
    ensures CopyLowers(c, plan, m, r, done, k)
  {
  }

  lemma ConsQueries(c: Cfg, plan: seq<Task>, m: Mem, r: nat, done: nat, k: Cons)
    requires Shape(c, m) && r < c.ranks && ConsOk(c, m, r, k) && k.pc.CEvent?
    ensures CopyLowers(c, plan, m, r, done, k)
  {
  }

  lemma ConsAcks(c: Cfg, plan: seq<Task>, m: Mem, r: nat, done: nat, k: Cons)
    requires Shape(c, m) && r < c.ranks && ConsOk(c, m, r, k) && k.pc.CAck?
    ensures CopyLowers(c, plan, m, r, done, k)
  {
    assert |m.stream[r]| == 0;
  }

  lemma ConsFinishes(c: Cfg, plan: seq<Task>, m: Mem, begun: nat, r: nat, done: nat, k: Cons)
    requires ValidPlan(c, plan) && Shape(c, m) && Chain(c, m) && r < c.ranks && ConsOk(c, m, r, k)
    requires LayerGood(c, plan, m, begun) && ConsGood(c, plan, m, begun, r, done, k)
    requires k.pc.CBytes? || k.pc.CDone?
    ensures var out := ConsAct(c, m, false, r, k, NoFault);
      Shape(c, out.m) ==>
        ConsLeft(c, plan, out.m, r, DoneAfter(done, k.pc), out.k.pc)
        < ConsLeft(c, plan, m, r, done, k.pc)
  {
  }

  // ----- and nobody else's

  lemma ProducerLeftStable(c: Cfg, plan: seq<Task>, m: Mem, t: Mem, r: nat, d: Driver, pc: ProdPc)
    requires Shape(c, m) && Shape(c, t) && Chain(c, t) && r < c.ranks
    requires ApiOk(c, m, r, InProducer(pc)) && RelyApi(c, m, t, r)
    ensures ApiLeft(c, plan, t, r, d, InProducer(pc)) <= ApiLeft(c, plan, m, r, d, InProducer(pc))
  {
    if pc.ProdBarrier? && ProducerReady(c, m, pc) {
      forall j | 0 <= j < c.ranks ensures t.joinEpoch[j] == pc.e {
        assert m.joinEpoch[j] <= t.joinEpoch[j] && InPair(t.h, t.active, t.joinEpoch[j]);
      }
    }
  }

  lemma ApiLeftStable(c: Cfg, plan: seq<Task>, m: Mem, t: Mem, begun: nat, r: nat, d: Driver, pc: Api)
    requires ValidPlan(c, plan) && Shape(c, m) && Chain(c, m) && Shape(c, t) && Chain(c, t) && r < c.ranks
    requires ApiOk(c, m, r, pc) && RelyApi(c, m, t, r)
    requires LayerGood(c, plan, m, begun) && ApiGood(c, plan, m, begun, r, d, pc)
    ensures ApiLeft(c, plan, t, r, d, pc) <= ApiLeft(c, plan, m, r, d, pc)
  {
    hide Times, Future, RunCost, WaitCost, AfterJoin, ValidPlan;
    if pc.InProducer? {
      ProducerLeftStable(c, plan, m, t, r, d, pc.prod);
    } else {
      EpochOrder(c, plan, d.at, begun);
      if d.at < |plan| {
        EpochOrder(c, plan, d.at, d.at + 1);
      }
    }
  }

  lemma ConsLeftStable(c: Cfg, plan: seq<Task>, m: Mem, t: Mem, r: nat, done: nat, k: Cons)
    requires Shape(c, m) && Shape(c, t) && r < c.ranks && ConsOk(c, m, r, k) && RelyCons(c, m, t, r)
    ensures ConsLeft(c, plan, t, r, done, k.pc) <= ConsLeft(c, plan, m, r, done, k.pc)
  {
  }

  // ----- the whole system

  /** The step polls a condition that does not hold, or is one of the writer's own stores. */
  ghost predicate Waiting(c: Cfg, g: Good, l: Label)
    requires GoodShape(c, g)
  {
    match l
    case ApiStep(r, _) => r < c.ranks && !ApiReady(c, g.s.m, r, g.s.api[r])
    case ConsStep(r, _) => r < c.ranks && !ConsReady(c, g.s.m, r, g.s.cons[r].pc)
    case WriterStore(_, _, _) => true
    case _ => false
  }

  lemma StableApiGood(c: Cfg, plan: seq<Task>, m: Mem, t: Mem, begun: nat, later: nat, r: nat, d: Driver, pc: Api)
    requires Shape(c, m) && Shape(c, t) && r < c.ranks && RelyApi(c, m, t, r) && begun <= later
    requires r == 0 ==> begun == later
    requires ApiGood(c, plan, m, begun, r, d, pc)
    ensures ApiGood(c, plan, t, later, r, d, pc)
  {
  }

  lemma ApiActGood(c: Cfg, plan: seq<Task>, m: Mem, begun: nat, r: nat, d: Driver, pc: Api)
    requires ValidPlan(c, plan) && Shared(c, m) && r < c.ranks && ApiOk(c, m, r, pc) && !Resting(pc)
    requires LayerGood(c, plan, m, begun) && ApiGood(c, plan, m, begun, r, d, pc)
    ensures var act := ApiAct(c, m, false, r, pc, false);
      Shape(c, act.m) && ApiStepGood(c, plan, m, begun, r, d, pc, act)
      && Lowers(c, plan, m, r, d, pc, ApiReady(c, m, r, pc), act)
  {
    hide Chain, Cells, Counters, Copies, Publications, Results, ApiStepGood, LayerGood, ValidPlan;
    match pc {
      case InJoin(join) =>
        JoinStepGood(c, plan, m, begun, r, d, join);
        JoinMoves(c, plan, m, begun, r, d, join);
      case InProducer(prod) =>
        ProducerStepGood(c, plan, m, begun, d, prod);
        ProducerMoves(c, plan, m, begun, d, prod);
      case InWait(wait) =>
        WaitStepGood(c, plan, m, begun, r, d, wait);
        WaitMoves(c, plan, m, begun, r, d, wait);
    }
  }

  /** Nobody but rank r's API thread (api) or copy thread (cons) moved: the others keep their facts and measures. */
  ghost predicate OnlyMoved(c: Cfg, plan: seq<Task>, g: Good, k: Good, api: int, cons: int)
    requires GoodShape(c, g) && GoodShape(c, k)
  {
    && (forall r | 0 <= r < c.ranks && r != api ::
      && ApiGood(c, plan, k.s.m, k.begun, r, k.drivers[r], k.s.api[r])
      && ApiLeft(c, plan, k.s.m, r, k.drivers[r], k.s.api[r]) <= ApiLeft(c, plan, g.s.m, r, g.drivers[r], g.s.api[r]))
    && (forall r | 0 <= r < c.ranks && r != cons ::
      && ConsGood(c, plan, k.s.m, k.begun, r, k.done[r], k.s.cons[r])
      && ConsLeft(c, plan, k.s.m, r, k.done[r], k.s.cons[r].pc)
         <= ConsLeft(c, plan, g.s.m, r, g.done[r], g.s.cons[r].pc))
  }

  /** Program points, callers and counts of the threads that did not move. */
  ghost predicate Untouched(c: Cfg, g: Good, k: Good, api: int, cons: int)
    requires GoodShape(c, g) && GoodShape(c, k)
  {
    && g.begun <= k.begun && (api != 0 ==> k.begun == g.begun) && k.s.m.stopping == g.s.m.stopping
    && (forall r | 0 <= r < c.ranks && r != api :: k.s.api[r] == g.s.api[r] && k.drivers[r] == g.drivers[r])
    && (forall r | 0 <= r < c.ranks && r != cons :: k.s.cons[r] == g.s.cons[r] && k.done[r] == g.done[r])
  }

  lemma OthersGood(c: Cfg, plan: seq<Task>, g: Good, k: Good, api: int, cons: int)
    requires ValidPlan(c, plan) && GoodInv(c, plan, g) && GoodShape(c, k) && Inv(c, k.s)
    requires Others(c, g.s.m, k.s.m, api, cons)
    requires Untouched(c, g, k, api, cons)
    ensures OnlyMoved(c, plan, g, k, api, cons)
  {
    hide Cells, Counters, Copies, Publications, Results, ApiGood, ApiLeft, ConsLeft, RelyApi, ApiOk, ConsOk,
         LayerGood;
    forall r | 0 <= r < c.ranks && r != api
      ensures ApiGood(c, plan, k.s.m, k.begun, r, k.drivers[r], k.s.api[r])
      ensures ApiLeft(c, plan, k.s.m, r, k.drivers[r], k.s.api[r])
              <= ApiLeft(c, plan, g.s.m, r, g.drivers[r], g.s.api[r])
    {
      StableApiGood(c, plan, g.s.m, k.s.m, g.begun, k.begun, r, g.drivers[r], g.s.api[r]);
      ApiLeftStable(c, plan, g.s.m, k.s.m, g.begun, r, g.drivers[r], g.s.api[r]);
    }
    forall r | 0 <= r < c.ranks && r != cons
      ensures ConsGood(c, plan, k.s.m, k.begun, r, k.done[r], k.s.cons[r])
      ensures ConsLeft(c, plan, k.s.m, r, k.done[r], k.s.cons[r].pc)
              <= ConsLeft(c, plan, g.s.m, r, g.done[r], g.s.cons[r].pc)
    {
      assert RelyCons(c, g.s.m, k.s.m, r);
      ConsLeftStable(c, plan, g.s.m, k.s.m, r, g.done[r], g.s.cons[r]);
    }
  }

  lemma {:induction false} TotalFalls(c: Cfg, plan: seq<Task>, g: Good, k: Good, n: nat)
    requires GoodShape(c, g) && GoodShape(c, k) && n <= c.ranks
    requires forall q | 0 <= q < n :: RankLeft(c, plan, k, q) <= RankLeft(c, plan, g, q)
    ensures Total(c, plan, k, n) <= Total(c, plan, g, n)
    ensures (exists q :: 0 <= q < n && RankLeft(c, plan, k, q) < RankLeft(c, plan, g, q)) ==>
      Total(c, plan, k, n) < Total(c, plan, g, n)
  {
    hide RankLeft, StateShape;
    if n > 0 {
      TotalFalls(c, plan, g, k, n - 1);
    }
  }

  /** When only rank r's threads and device moved and its own measure did not rise, the total did not rise. */
  lemma LeftFalls(c: Cfg, plan: seq<Task>, g: Good, k: Good, api: int, cons: int, r: nat)
    requires GoodShape(c, g) && GoodShape(c, k) && r < c.ranks && (api == -1 || api == r) && (cons == -1 || cons == r)
    requires OnlyMoved(c, plan, g, k, api, cons)
    requires forall q | 0 <= q < c.ranks && q != r :: k.s.m.stream[q] == g.s.m.stream[q]
    requires RankLeft(c, plan, k, r) <= RankLeft(c, plan, g, r)
    ensures Left(c, plan, k) <= Left(c, plan, g)
    ensures RankLeft(c, plan, k, r) < RankLeft(c, plan, g, r) ==> Left(c, plan, k) < Left(c, plan, g)
  {
    TotalFalls(c, plan, g, k, c.ranks);
  }

  lemma GoodFrom(c: Cfg, plan: seq<Task>, g: Good, k: Good, api: int, cons: int)
    requires GoodShape(c, g) && GoodShape(c, k) && Inv(c, k.s) && k.s.latch == PoisonLatch.INITIAL
    requires LayerGood(c, plan, k.s.m, k.begun) && OnlyMoved(c, plan, g, k, api, cons)
    requires 0 <= api < c.ranks ==> ApiGood(c, plan, k.s.m, k.begun, api, k.drivers[api], k.s.api[api])
    requires 0 <= cons < c.ranks ==> ConsGood(c, plan, k.s.m, k.begun, cons, k.done[cons], k.s.cons[cons])
    ensures GoodInv(c, plan, k)
  {
    hide Inv;
  }

  /** The step keeps the invariant; the measure falls, or at a waiting step does not rise. */
  ghost predicate Progresses(c: Cfg, plan: seq<Task>, g: Good, l: Label, k: Good)
    requires GoodShape(c, g)
  {
    && GoodInv(c, plan, k)
    && (if Waiting(c, g, l) then Left(c, plan, k) <= Left(c, plan, g) else Left(c, plan, k) < Left(c, plan, g))
  }

  lemma ApiMovedInv(c: Cfg, plan: seq<Task>, g: Good, r: nat, k: Good)
    requires ValidPlan(c, plan) && GoodInv(c, plan, g) && GoodStep(c, plan, g, ApiStep(r, false), k)
    ensures r < c.ranks && !Resting(g.s.api[r]) && k == AfterApi(c, g, r)
    ensures GoodShape(c, k) && Inv(c, k.s) && k.s.latch == PoisonLatch.INITIAL && Others(c, g.s.m, k.s.m, r, -1)
  {
    hide Chain, Cells, Counters, Copies, Publications, Results, ApiGood, ConsGood, LayerGood, Others;
    ApiActGood(c, plan, g.s.m, g.begun, r, g.drivers[r], g.s.api[r]);
    ApiActOk(c, g.s.m, false, r, g.s.api[r], false);
    ApiStepIs(c, plan, g, r, k);
    ApiKeeps(c, g.s, r, false, k.s);
    InvShape(c, k.s);
  }

  lemma ApiUntouched(c: Cfg, plan: seq<Task>, g: Good, r: nat)
    requires GoodShape(c, g) && r < c.ranks && !Resting(g.s.api[r]) && GoodShape(c, AfterApi(c, g, r))
    requires ApiAct(c, g.s.m, false, r, g.s.api[r], false).m.stopping == g.s.m.stopping
    requires g.s.api[r].InJoin? && g.s.api[r].join.JoinPublish? ==> r == 0
    ensures Untouched(c, g, AfterApi(c, g, r), r, -1)
  {
  }

  lemma ApiMoved(c: Cfg, plan: seq<Task>, g: Good, r: nat)
    requires ValidPlan(c, plan) && GoodInv(c, plan, g) && r < c.ranks && !Resting(g.s.api[r])
    requires GoodShape(c, AfterApi(c, g, r)) && Inv(c, AfterApi(c, g, r).s)
    requires Others(c, g.s.m, AfterApi(c, g, r).s.m, r, -1)
    ensures OnlyMoved(c, plan, g, AfterApi(c, g, r), r, -1)
  {
    hide Shared, ApiGood, ConsGood, LayerGood, OnlyMoved, Untouched, Others;
    ApiActGood(c, plan, g.s.m, g.begun, r, g.drivers[r], g.s.api[r]);
    ApiUntouched(c, plan, g, r);
    OthersGood(c, plan, g, AfterApi(c, g, r), r, -1);
  }

  lemma ApiMovedOwn(c: Cfg, plan: seq<Task>, g: Good, r: nat)
    requires ValidPlan(c, plan) && GoodInv(c, plan, g) && r < c.ranks && !Resting(g.s.api[r])
    requires GoodShape(c, AfterApi(c, g, r))
    ensures var k := AfterApi(c, g, r);
      && LayerGood(c, plan, k.s.m, k.begun) && k.s.m.stream == g.s.m.stream
      && ApiGood(c, plan, k.s.m, k.begun, r, k.drivers[r], k.s.api[r])
      && var before, later := ApiLeft(c, plan, g.s.m, r, g.drivers[r], g.s.api[r]),
                              ApiLeft(c, plan, k.s.m, r, k.drivers[r], k.s.api[r]);
      if ApiReady(c, g.s.m, r, g.s.api[r]) then later < before else later <= before
  {
    hide Chain, Cells, Counters, Copies, Publications, Results, ConsGood;
    ApiActGood(c, plan, g.s.m, g.begun, r, g.drivers[r], g.s.api[r]);
  }

  lemma ApiProgress(c: Cfg, plan: seq<Task>, g: Good, r: nat, k: Good)
    requires ValidPlan(c, plan) && GoodInv(c, plan, g) && GoodStep(c, plan, g, ApiStep(r, false), k)
    ensures Progresses(c, plan, g, ApiStep(r, false), k)
  {
    hide Inv, ApiGood, ConsGood, LayerGood, GoodStep, Others, ApiLeft, ConsLeft, Left;
    ApiMovedInv(c, plan, g, r, k);
    ApiMoved(c, plan, g, r);
    ApiMovedOwn(c, plan, g, r);
    GoodFrom(c, plan, g, k, r, -1);
    LeftFalls(c, plan, g, k, r, -1, r);
  }

  lemma ConsActGood(c: Cfg, plan: seq<Task>, m: Mem, begun: nat, r: nat, done: nat, k: Cons)
    requires ValidPlan(c, plan) && Shared(c, m) && r < c.ranks && ConsOk(c, m, r, k)
    requires LayerGood(c, plan, m, begun) && ConsGood(c, plan, m, begun, r, done, k)
    ensures var out := ConsAct(c, m, false, r, k, NoFault);
      && Shape(c, out.m)
      && ConsGood(c, plan, out.m, begun, r, DoneAfter(done, k.pc), out.k)
      && var before := ConsLeft(c, plan, m, r, done, k.pc) + |m.stream[r]|;
      var later := ConsLeft(c, plan, out.m, r, DoneAfter(done, k.pc), out.k.pc) + |out.m.stream[r]|;
      if ConsReady(c, m, r, k.pc) then later < before else later <= before
  {
    hide Chain, Cells, Counters, Copies, Publications, Results, LayerGood, ValidPlan;
    ConsStepGood(c, plan, m, begun, r, done, k);
    match k.pc {
      case CPoll(_, _, _, _, _) => ConsPolls(c, plan, m, r, done, k);
      case CIssue(_, _, _, _, _, _) => ConsIssues(c, plan, m, r, done, k);
      case CEvent(_, _, _, _, _, _) => ConsQueries(c, plan, m, r, done, k);
      case CAck(_, _, _, _, _) => ConsAcks(c, plan, m, r, done, k);
      case CBytes(_, _) => ConsFinishes(c, plan, m, begun, r, done, k);
      case CDone(_) => ConsFinishes(c, plan, m, begun, r, done, k);
      case _ => ConsIdles(c, plan, m, begun, r, done, k);
    }
  }

  lemma ConsStreams(c: Cfg, m: Mem, r: nat, k: Cons)
    requires Shape(c, m) && r < c.ranks && ConsShape(c, k)
    ensures var t := ConsAct(c, m, false, r, k, NoFault).m;
      |t.stream| == c.ranks && forall q | 0 <= q < c.ranks && q != r :: t.stream[q] == m.stream[q]
  {
  }

  lemma ConsMovedInv(c: Cfg, plan: seq<Task>, g: Good, r: nat, k: Good)
    requires ValidPlan(c, plan) && GoodInv(c, plan, g) && GoodStep(c, plan, g, ConsStep(r, NoFault), k)
    ensures r < c.ranks && k == AfterCons(c, g, r)
    ensures GoodShape(c, k) && Inv(c, k.s) && k.s.latch == PoisonLatch.INITIAL && Others(c, g.s.m, k.s.m, -1, r)
  {
    hide Chain, Cells, Counters, Copies, Publications, Results, ApiGood, ConsGood, LayerGood, Others;
    var m, cons := g.s.m, g.s.cons[r];
    ConsStepGood(c, plan, m, g.begun, r, g.done[r], cons);
    ConsActOk(c, m, false, r, cons, NoFault);
    ConsStepIs(c, plan, g, r, k);
    ConsKeeps(c, g.s, r, NoFault, k.s);
    InvShape(c, k.s);
  }

  lemma ConsUntouched(c: Cfg, plan: seq<Task>, g: Good, r: nat)
    requires GoodShape(c, g) && r < c.ranks && GoodShape(c, AfterCons(c, g, r))
    requires ConsAct(c, g.s.m, false, r, g.s.cons[r], NoFault).m.stopping == g.s.m.stopping
    ensures Untouched(c, g, AfterCons(c, g, r), -1, r)
  {
  }

  lemma ConsMoved(c: Cfg, plan: seq<Task>, g: Good, r: nat, k: Good)
    requires ValidPlan(c, plan) && GoodInv(c, plan, g) && r < c.ranks && k == AfterCons(c, g, r)
    requires GoodShape(c, k) && Inv(c, k.s) && Others(c, g.s.m, k.s.m, -1, r)
    ensures OnlyMoved(c, plan, g, k, -1, r)
  {
    hide Chain, Cells, Counters, Copies, Publications, Results, ApiGood, ConsGood, LayerGood, OnlyMoved, Untouched,
         Others;
    ConsStepGood(c, plan, g.s.m, g.begun, r, g.done[r], g.s.cons[r]);
    ConsUntouched(c, plan, g, r);
    OthersGood(c, plan, g, k, -1, r);
  }

  lemma ConsMovedOwn(c: Cfg, plan: seq<Task>, g: Good, r: nat, k: Good)
    requires ValidPlan(c, plan) && GoodInv(c, plan, g) && r < c.ranks && k == AfterCons(c, g, r) && GoodShape(c, k)
    ensures LayerGood(c, plan, k.s.m, k.begun)
    ensures ConsGood(c, plan, k.s.m, k.begun, r, k.done[r], k.s.cons[r])
    ensures forall q | 0 <= q < c.ranks && q != r :: k.s.m.stream[q] == g.s.m.stream[q]
  {
    hide Chain, Cells, Counters, Copies, Publications, Results, ApiGood;
    ConsStepGood(c, plan, g.s.m, g.begun, r, g.done[r], g.s.cons[r]);
    ConsStreams(c, g.s.m, r, g.s.cons[r]);
  }

  lemma ConsProgress(c: Cfg, plan: seq<Task>, g: Good, r: nat, k: Good)
    requires ValidPlan(c, plan) && GoodInv(c, plan, g) && GoodStep(c, plan, g, ConsStep(r, NoFault), k)
    ensures Progresses(c, plan, g, ConsStep(r, NoFault), k)
  {
    hide Chain, Cells, Counters, Copies, Publications, Results, ApiGood, ConsGood, LayerGood, GoodStep, Others,
         ApiLeft, ConsLeft, Left;
    ConsMovedInv(c, plan, g, r, k);
    ConsMoved(c, plan, g, r, k);
    ConsMovedOwn(c, plan, g, r, k);
    GoodFrom(c, plan, g, k, -1, r);
    ConsActGood(c, plan, g.s.m, g.begun, r, g.done[r], g.s.cons[r]);
    LeftFalls(c, plan, g, k, -1, r, r);
  }

  lemma CopyMovedInv(c: Cfg, plan: seq<Task>, g: Good, r: nat, k: Good)
    requires ValidPlan(c, plan) && GoodInv(c, plan, g) && GoodStep(c, plan, g, CopyRuns(r), k)
    ensures r < c.ranks && g.s.m.stream[r] != [] && k == g.(s := g.s.(m := CopyOne(c, g.s.m, r)))
    ensures GoodShape(c, k) && Inv(c, k.s) && Others(c, g.s.m, k.s.m, -1, -1)
  {
    hide Shared, ApiGood, ConsGood, LayerGood;
    CopyRunsOk(c, g.s.m, r);
    CopyKeeps(c, g.s, r, k.s);
    InvShape(c, k.s);
  }

  lemma CopyMoved(c: Cfg, plan: seq<Task>, g: Good, r: nat, k: Good)
    requires ValidPlan(c, plan) && GoodInv(c, plan, g) && r < c.ranks && g.s.m.stream[r] != []
    requires k == g.(s := g.s.(m := CopyOne(c, g.s.m, r)))
    requires GoodShape(c, k) && Inv(c, k.s) && Others(c, g.s.m, k.s.m, -1, -1)
    ensures k.s.latch == PoisonLatch.INITIAL
    ensures LayerGood(c, plan, k.s.m, k.begun) && OnlyMoved(c, plan, g, k, -1, -1)
    ensures |k.s.m.stream[r]| == |g.s.m.stream[r]| - 1
    ensures forall q | 0 <= q < c.ranks && q != r :: k.s.m.stream[q] == g.s.m.stream[q]
  {
    hide Inv, ApiGood, ConsGood, Others;
    OthersGood(c, plan, g, k, -1, -1);
  }

  lemma CopyProgress(c: Cfg, plan: seq<Task>, g: Good, r: nat, k: Good)
    requires ValidPlan(c, plan) && GoodInv(c, plan, g) && GoodStep(c, plan, g, CopyRuns(r), k)
    ensures Progresses(c, plan, g, CopyRuns(r), k)
  {
    hide Inv, ApiGood, ConsGood, LayerGood, GoodStep, Others, ApiLeft, ConsLeft, Left;
    CopyMovedInv(c, plan, g, r, k);
    CopyMoved(c, plan, g, r, k);
    GoodFrom(c, plan, g, k, -1, -1);
    LeftFalls(c, plan, g, k, -1, -1, r);
  }

  lemma WriterMovedInv(c: Cfg, plan: seq<Task>, g: Good, l: Label, k: Good)
    requires GoodInv(c, plan, g) && GoodStep(c, plan, g, l, k) && l.WriterStore?
    ensures GoodShape(c, k) && Inv(c, k.s) && Others(c, g.s.m, k.s.m, 0, -1)
    ensures k == g.(s := g.s.(m := g.s.m.(host := k.s.m.host)))
  {
    hide Chain, Cells, Counters, Copies, Publications, Results, ApiGood, ConsGood, LayerGood;
    assert ApiOk(c, g.s.m, 0, g.s.api[0]);
    WriterStores(c, g.s.m, g.s.api[0].prod, l.rank, l.kind, l.block);
    WriterKeeps(c, g.s, l.rank, l.kind, l.block, k.s);
    InvShape(c, k.s);
  }

  lemma WriterMovedOwn(c: Cfg, plan: seq<Task>, g: Good, k: Good)
    requires GoodInv(c, plan, g) && GoodShape(c, k)
    requires k == g.(s := g.s.(m := g.s.m.(host := k.s.m.host)))
    ensures ApiGood(c, plan, k.s.m, k.begun, 0, k.drivers[0], k.s.api[0]) && LayerGood(c, plan, k.s.m, k.begun)
    ensures ApiLeft(c, plan, k.s.m, 0, k.drivers[0], k.s.api[0]) == ApiLeft(c, plan, g.s.m, 0, g.drivers[0], g.s.api[0])
  {
    hide Inv, ConsGood, Epoch, Times, Future;
    assert ApiGood(c, plan, g.s.m, g.begun, 0, g.drivers[0], g.s.api[0]);
  }

  lemma WriterProgress(c: Cfg, plan: seq<Task>, g: Good, l: Label, k: Good)
    requires ValidPlan(c, plan) && GoodInv(c, plan, g) && GoodStep(c, plan, g, l, k) && l.WriterStore?
    ensures Progresses(c, plan, g, l, k)
  {
    hide Inv, ApiGood, ConsGood, LayerGood, GoodStep, Others, ApiLeft, ConsLeft, Left;
    WriterMovedInv(c, plan, g, l, k);
    WriterMovedOwn(c, plan, g, k);
    OthersGood(c, plan, g, k, 0, -1);
    GoodFrom(c, plan, g, k, 0, -1);
    LeftFalls(c, plan, g, k, 0, -1, 0);
  }

  lemma CallGood(c: Cfg, plan: seq<Task>, g: Good, l: Label, k: Good)
    requires ValidPlan(c, plan) && GoodShape(c, g) && !Poisoned(g.s) && GoodStep(c, plan, g, l, k)
    requires l.CallJoin? || l.CallProducer? || l.CallWait?
    requires var r := CallerOf(l); r < c.ranks ==> ApiGood(c, plan, g.s.m, g.begun, r, g.drivers[r], g.s.api[r])
    ensures var r, m := CallerOf(l), g.s.m;
      && r < c.ranks && k == g.(s := g.s.(api := g.s.api[r := CallAct(c, m, false, l)]))
      && ApiShape(c, k.s.api[r])
      && ApiGood(c, plan, m, g.begun, r, g.drivers[r], k.s.api[r])
      && ApiLeft(c, plan, m, r, g.drivers[r], k.s.api[r]) < ApiLeft(c, plan, m, r, g.drivers[r], g.s.api[r])
  {
    var r := CallerOf(l);
    assert ValidArguments(c, plan[g.drivers[r].at].e, plan[g.drivers[r].at].L, plan[g.drivers[r].at].n);
  }

  lemma CallMoved(c: Cfg, plan: seq<Task>, g: Good, r: nat, pc: Api, k: Good)
    requires GoodInv(c, plan, g) && r < c.ranks && k == g.(s := g.s.(api := g.s.api[r := pc]))
    requires ApiShape(c, pc)
    ensures GoodShape(c, k) && OnlyMoved(c, plan, g, k, r, -1)
  {
  }

  lemma CallMovedInv(c: Cfg, plan: seq<Task>, g: Good, l: Label, k: Good)
    requires ValidPlan(c, plan) && GoodInv(c, plan, g) && GoodStep(c, plan, g, l, k)
    requires l.CallJoin? || l.CallProducer? || l.CallWait?
    ensures CallerOf(l) < c.ranks && k == g.(s := g.s.(api := k.s.api))
    ensures GoodShape(c, k) && Inv(c, k.s) && Untouched(c, g, k, CallerOf(l), -1)
  {
    hide Shared, ConsGood, LayerGood, ApiOk, ConsOk;
    forall r | 0 <= r < c.ranks ensures !g.s.api[r].Failed? {
      assert ApiGood(c, plan, g.s.m, g.begun, r, g.drivers[r], g.s.api[r]);
    }
    CallKeeps(c, g.s, l, k.s);
    InvShape(c, k.s);
  }

  lemma CallProgress(c: Cfg, plan: seq<Task>, g: Good, l: Label, k: Good)
    requires ValidPlan(c, plan) && GoodInv(c, plan, g) && GoodStep(c, plan, g, l, k)
    requires l.CallJoin? || l.CallProducer? || l.CallWait?
    ensures Progresses(c, plan, g, l, k)
  {
    hide Inv, ApiGood, ConsGood, LayerGood, ApiLeft, ConsLeft, Left;
    var r := CallerOf(l);
    CallMovedInv(c, plan, g, l, k);
    CallGood(c, plan, g, l, k);
    CallMoved(c, plan, g, r, k.s.api[r], k);
    GoodFrom(c, plan, g, k, r, -1);
    LeftFalls(c, plan, g, k, r, -1, r);
  }

  /** Every good step keeps the invariant, so no call ever fails and nothing is ever poisoned; and it lowers the
      measure unless it polls a condition that does not hold yet or is a store of the writer. */
  lemma GoodStepProgress(c: Cfg, plan: seq<Task>, g: Good, l: Label, k: Good)
    requires ValidPlan(c, plan) && GoodInv(c, plan, g) && GoodStep(c, plan, g, l, k)
    ensures Progresses(c, plan, g, l, k)
  {
    hide GoodInv, Progresses, Step;
    match l {
      case CallJoin(_, _, _, _) => CallProgress(c, plan, g, l, k);
      case CallProducer(_, _, _) => CallProgress(c, plan, g, l, k);
      case CallWait(_, _) => CallProgress(c, plan, g, l, k);
      case ApiStep(r, _) => ApiProgress(c, plan, g, r, k);
      case WriterStore(_, _, _) => WriterProgress(c, plan, g, l, k);
      case ConsStep(r, _) => ConsProgress(c, plan, g, r, k);
      case CopyRuns(r) => CopyProgress(c, plan, g, r, k);
    }
  }

  // ----- no reachable state is stuck

  /** Some step that lowers the measure is enabled. */
  ghost predicate CanMove(c: Cfg, plan: seq<Task>, g: Good)
    requires GoodShape(c, g)
  {
    exists l, k :: GoodStep(c, plan, g, l, k) && !Waiting(c, g, l)
  }

  ghost predicate Finished(plan: seq<Task>, g: Good) {
    forall r | 0 <= r < |g.drivers| :: g.drivers[r].at >= |plan|
  }

  lemma Witnessed(c: Cfg, plan: seq<Task>, g: Good, l: Label, k: Good)
    requires GoodShape(c, g) && GoodStep(c, plan, g, l, k) && !Waiting(c, g, l)
    ensures CanMove(c, plan, g)
  {
  }

  lemma ApiCanMove(c: Cfg, plan: seq<Task>, g: Good, r: nat)
    requires ValidPlan(c, plan) && GoodInv(c, plan, g) && r < c.ranks
    requires !Resting(g.s.api[r]) && ApiReady(c, g.s.m, r, g.s.api[r])
    ensures CanMove(c, plan, g)
  {
    hide Chain, Cells, Counters, Copies, Publications, Results, ConsOk, ConsGood, CanMove;
    ApiActGood(c, plan, g.s.m, g.begun, r, g.drivers[r], g.s.api[r]);
    ApiTakes(c, plan, g, r);
    Witnessed(c, plan, g, ApiStep(r, false), AfterApi(c, g, r));
  }

  lemma ConsCanMove(c: Cfg, plan: seq<Task>, g: Good, r: nat)
    requires ValidPlan(c, plan) && GoodInv(c, plan, g) && r < c.ranks && ConsReady(c, g.s.m, r, g.s.cons[r].pc)
    ensures CanMove(c, plan, g)
  {
    hide Counters, Copies, Publications, Results, CanMove;
    ConsStepGood(c, plan, g.s.m, g.begun, r, g.done[r], g.s.cons[r]);
    ConsTakes(c, plan, g, r);
    Witnessed(c, plan, g, ConsStep(r, NoFault), AfterCons(c, g, r));
  }

  lemma CopyTakes(c: Cfg, plan: seq<Task>, g: Good, r: nat)
    requires GoodShape(c, g) && r < c.ranks && g.s.m.stream[r] != []
    ensures GoodStep(c, plan, g, CopyRuns(r), g.(s := g.s.(m := CopyOne(c, g.s.m, r))))
  {
  }

  lemma CopyCanMove(c: Cfg, plan: seq<Task>, g: Good, r: nat)
    requires GoodInv(c, plan, g) && r < c.ranks && g.s.m.stream[r] != []
    ensures CanMove(c, plan, g)
  {
    CopyTakes(c, plan, g, r);
    Witnessed(c, plan, g, CopyRuns(r), g.(s := g.s.(m := CopyOne(c, g.s.m, r))));
  }

  lemma CallTakes(c: Cfg, plan: seq<Task>, g: Good, r: nat) returns (l: Label, k: Good)
    requires GoodShape(c, g) && r < c.ranks && g.s.api[r].Ready? && g.drivers[r].at < |plan|
    requires g.drivers[r].next.DoRun? ==> r == 0 && !g.s.m.h.ran
    ensures GoodStep(c, plan, g, l, k) && !Waiting(c, g, l)
  {
    var task := plan[g.drivers[r].at];
    l := match g.drivers[r].next
      case DoJoin => CallJoin(r, task.e, task.L, task.n)
      case DoRun => CallProducer(task.e, task.L, task.n)
      case DoWait => CallWait(r, task.e);
    k := g.(s := g.s.(api := g.s.api[r := CallAct(c, g.s.m, Poisoned(g.s), l)]));
  }

  lemma CallCanMove(c: Cfg, plan: seq<Task>, g: Good, r: nat)
    requires ValidPlan(c, plan) && GoodInv(c, plan, g) && r < c.ranks && g.s.api[r].Ready? && g.drivers[r].at < |plan|
    ensures CanMove(c, plan, g)
  {
    hide Inv;
    assert ApiGood(c, plan, g.s.m, g.begun, r, g.drivers[r], g.s.api[r]);
    var l, k := CallTakes(c, plan, g, r);
    Witnessed(c, plan, g, l, k);
  }

  /** A copy thread with a publication to take, or an experts-complete layer to close, is not stuck. */
  lemma ConsumerWorks(c: Cfg, plan: seq<Task>, g: Good, r: nat)
    requires ValidPlan(c, plan) && GoodInv(c, plan, g) && r < c.ranks
    requires g.s.m.active != 0 && g.s.m.joinEpoch[r] == g.s.m.active != g.s.m.consumerDone[r]
    requires g.s.m.h.acked[r] < g.s.m.h.published || g.s.m.h.published == g.s.m.h.count
    ensures CanMove(c, plan, g)
  {
    hide Publications, Results, CanMove;
    assert ConsOk(c, g.s.m, r, g.s.cons[r]) && ConsGood(c, plan, g.s.m, g.begun, r, g.done[r], g.s.cons[r]);
    if g.s.m.stream[r] != [] {
      CopyCanMove(c, plan, g, r);
    } else {
      ConsCanMove(c, plan, g, r);
    }
  }

  /** A rank that has not joined the active layer is not stuck: followers wait for nothing but its epoch. */
  lemma JoinerMoves(c: Cfg, plan: seq<Task>, g: Good, r: nat)
    requires ValidPlan(c, plan) && GoodInv(c, plan, g) && 0 < r < c.ranks
    requires g.s.m.joinEpoch[r] != g.s.m.active
    ensures CanMove(c, plan, g)
  {
    hide Counters, Copies, Publications, Results, CanMove;
    var m, d, pc := g.s.m, g.drivers[r], g.s.api[r];
    assert ApiOk(c, m, r, pc) && ApiGood(c, plan, m, g.begun, r, d, pc);
    AtMostOneBehind(c, plan, m, g.begun, r, d, pc);
    EpochOrder(c, plan, Joined(d), g.begun);
    EpochOrder(c, plan, d.at + 1, g.begun);
    if pc.Ready? {
      CallCanMove(c, plan, g, r);
    } else {
      ApiCanMove(c, plan, g, r);
    }
  }

  /** Once the producer is done with the active layer, a rank that has not returned from it is not stuck. */
  lemma RankBehind(c: Cfg, plan: seq<Task>, g: Good, r: nat)
    requires ValidPlan(c, plan) && GoodInv(c, plan, g) && r < c.ranks
    requires g.s.m.producerDone == g.s.m.active != g.s.m.waitReturned[r]
    ensures CanMove(c, plan, g)
  {
    hide Cells, Copies, Publications, Results, CanMove;
    var m, d, pc := g.s.m, g.drivers[r], g.s.api[r];
    assert ApiOk(c, m, r, pc) && ApiGood(c, plan, m, g.begun, r, d, pc);
    AtMostOneBehind(c, plan, m, g.begun, r, d, pc);
    EpochOrder(c, plan, d.at, g.begun);
    if pc.Ready? {
      CallCanMove(c, plan, g, r);
    } else if ApiReady(c, m, r, pc) {
      ApiCanMove(c, plan, g, r);
    } else {
      ConsumerWorks(c, plan, g, r);
    }
  }

  lemma {:induction false} SeqAbove(c: Cfg, base: nat, seq0: seq<nat>, p: nat, slot: nat)
    requires |seq0| == c.slots && slot < c.slots
    ensures SeqAt(c, base, Zeros(c.slots), p)[slot] <= SeqAt(c, base, seq0, p)[slot]
  {
    if p > 0 {
      SeqAbove(c, base, seq0, p - 1, slot);
    }
  }

  /** A rank whose acknowledgement is below what was sent on a slot has a publication to take. */
  lemma AckBehind(c: Cfg, m: Mem, j: nat, slot: nat, p: nat)
    requires Shape(c, m) && Counters(c, m) && j < c.ranks && slot < c.slots && p == m.h.published
    requires m.ack[j][slot] < SeqAt(c, m.h.base, Zeros(c.slots), p)[slot]
    ensures m.h.acked[j] < p
  {
    SeqAbove(c, m.h.base, m.h.seq0, p, slot);
  }

  lemma ProducerBlocked(c: Cfg, plan: seq<Task>, g: Good)
    requires ValidPlan(c, plan) && GoodInv(c, plan, g)
    requires g.s.api[0].InProducer? && !ApiReady(c, g.s.m, 0, g.s.api[0])
    ensures CanMove(c, plan, g)
  {
    hide Chain, Cells, Copies, Publications, Results, LayerGood, ConsOk, ConsGood, ValidPlan, CanMove;
    var m, pc := g.s.m, g.s.api[0].prod;
    assert ApiOk(c, m, 0, g.s.api[0]);
    if pc.ProdBarrier? {
      var j :| 0 <= j < c.ranks && m.joinEpoch[j] != pc.e;
      JoinerMoves(c, plan, g, j);
    } else {
      var slot := if pc.ProdAck? then c.SlotOf(pc.x) else pc.slot;
      var j :| 0 <= j < c.ranks && m.ack[j][slot] < pc.sent[slot];
      AckBehind(c, m, j, slot, m.h.published);
      ConsumerWorks(c, plan, g, j);
    }
  }

  /** Until every rank has returned from every layer of the plan, some measure-lowering step is enabled. */
  lemma NeverStuck(c: Cfg, plan: seq<Task>, g: Good)
    requires ValidPlan(c, plan) && GoodInv(c, plan, g) && !Finished(plan, g)
    ensures CanMove(c, plan, g)
  {
    hide Cells, Counters, Copies, Publications, Results, ValidPlan, CanMove;
    var m, d, pc := g.s.m, g.drivers[0], g.s.api[0];
    assert ApiOk(c, m, 0, pc) && ApiGood(c, plan, m, g.begun, 0, d, pc);
    if pc.Ready? && d.at < |plan| {
      CallCanMove(c, plan, g, 0);
    } else if !pc.Ready? && ApiReady(c, m, 0, pc) {
      ApiCanMove(c, plan, g, 0);
    } else if pc.InProducer? {
      ProducerBlocked(c, plan, g);
    } else if pc.InWait? {
      EpochOrder(c, plan, d.at, g.begun);
      RankBehind(c, plan, g, 0);
    } else if pc.InJoin? {
      var j :| 0 <= j < c.ranks && m.waitReturned[j] < m.active;
      RankBehind(c, plan, g, j);
    } else {
      var j :| 0 <= j < c.ranks && g.drivers[j].at < |plan|;
      assert ApiGood(c, plan, m, g.begun, j, g.drivers[j], g.s.api[j]);
      EpochOrder(c, plan, g.drivers[j].at, g.begun);
      RankBehind(c, plan, g, j);
    }
  }

  // ----- whole good runs

  ghost predicate GoodStepAt(c: Cfg, plan: seq<Task>, run: seq<Good>, labels: seq<Label>, i: nat)
    requires i + 1 < |run| && i < |labels|
  {
    GoodShape(c, run[i]) && GoodStep(c, plan, run[i], labels[i], run[i + 1])
  }

  ghost predicate GoodRun(c: Cfg, plan: seq<Task>, run: seq<Good>, labels: seq<Label>) {
    && ValidPlan(c, plan) && |run| == |labels| + 1
    && GoodInit(c, run[0])
    && forall i | 0 <= i < |labels| :: GoodStepAt(c, plan, run, labels, i)
  }

  /** Steps among the first i that are neither polls of an unmet condition nor stores of the writer. */
  ghost function WorkSteps(c: Cfg, run: seq<Good>, labels: seq<Label>, i: nat): nat
    requires i <= |labels| < |run|
  {
    if i == 0 then 0
    else WorkSteps(c, run, labels, i - 1)
         + (if GoodShape(c, run[i - 1]) && Waiting(c, run[i - 1], labels[i - 1]) then 0 else 1)
  }

  lemma LastStepProgresses(c: Cfg, plan: seq<Task>, run: seq<Good>, labels: seq<Label>, i: nat)
    requires ValidPlan(c, plan) && 0 < i < |run| == |labels| + 1
    requires GoodInv(c, plan, run[i - 1]) && GoodStepAt(c, plan, run, labels, i - 1)
    ensures GoodInv(c, plan, run[i])
    ensures WorkSteps(c, run, labels, i) + Left(c, plan, run[i])
            <= WorkSteps(c, run, labels, i - 1) + Left(c, plan, run[i - 1])
  {
    hide GoodStep, Inv, LayerGood, ApiGood, ConsGood;
    GoodStepProgress(c, plan, run[i - 1], labels[i - 1], run[i]);
  }

  lemma LastStepGood(c: Cfg, plan: seq<Task>, run: seq<Good>, labels: seq<Label>, i: nat)
    requires GoodRun(c, plan, run, labels) && 0 < i < |run| && GoodInv(c, plan, run[i - 1])
    ensures GoodInv(c, plan, run[i])
  {
    hide GoodInit, GoodInv;
    assert GoodStepAt(c, plan, run, labels, i - 1);
    LastStepProgresses(c, plan, run, labels, i);
  }

  lemma {:induction false} GoodRunInv(c: Cfg, plan: seq<Task>, run: seq<Good>, labels: seq<Label>, i: nat)
    requires GoodRun(c, plan, run, labels) && i < |run|
    ensures GoodInv(c, plan, run[i])
  {
    hide GoodStepAt, GoodInit, Inv;
    if i == 0 {
      GoodInitInv(c, plan, run[0]);
    } else {
      GoodRunInv(c, plan, run, labels, i - 1);
      LastStepGood(c, plan, run, labels, i);
    }
  }

  lemma WorkStep(c: Cfg, plan: seq<Task>, run: seq<Good>, labels: seq<Label>, i: nat)
    requires GoodRun(c, plan, run, labels) && 0 < i < |run|
    ensures GoodShape(c, run[i - 1]) && GoodShape(c, run[i])
    ensures WorkSteps(c, run, labels, i) + Left(c, plan, run[i])
            <= WorkSteps(c, run, labels, i - 1) + Left(c, plan, run[i - 1])
  {
    hide Inv, GoodInit, LayerGood, ApiGood, ConsGood, Left, WorkSteps;
    GoodRunInv(c, plan, run, labels, i - 1);
    assert GoodStepAt(c, plan, run, labels, i - 1);
    LastStepProgresses(c, plan, run, labels, i);
  }

  ghost predicate WorkStepOk(c: Cfg, plan: seq<Task>, run: seq<Good>, labels: seq<Label>, i: nat)
    requires 0 < i <= |labels| < |run|
  {
    && GoodShape(c, run[i - 1]) && GoodShape(c, run[i])
    && WorkSteps(c, run, labels, i) + Left(c, plan, run[i])
       <= WorkSteps(c, run, labels, i - 1) + Left(c, plan, run[i - 1])
  }

  lemma {:induction false} WorkSum(c: Cfg, plan: seq<Task>, run: seq<Good>, labels: seq<Label>, i: nat)
    requires i <= |labels| < |run| && GoodShape(c, run[0])
    requires forall k | 0 < k <= |labels| :: WorkStepOk(c, plan, run, labels, k)
    ensures GoodShape(c, run[i])
    ensures WorkSteps(c, run, labels, i) + Left(c, plan, run[i]) <= Left(c, plan, run[0])
  {
    hide Left;
    if i > 0 {
      WorkSum(c, plan, run, labels, i - 1);
      assert WorkStepOk(c, plan, run, labels, i);
    }
  }

  lemma WorkBound(c: Cfg, plan: seq<Task>, run: seq<Good>, labels: seq<Label>, i: nat)
    requires GoodRun(c, plan, run, labels) && i < |run|
    ensures GoodShape(c, run[0]) && GoodShape(c, run[i])
    ensures WorkSteps(c, run, labels, i) + Left(c, plan, run[i]) <= Left(c, plan, run[0])
  {
    hide GoodStepAt;
    forall k | 0 < k <= |labels| ensures WorkStepOk(c, plan, run, labels, k) {
      WorkStep(c, plan, run, labels, k);
    }
    WorkSum(c, plan, run, labels, i);
  }

  /** In a run under the intended use: the measure of the first state bounds the number of steps that are not waiting;
      nothing is ever poisoned and no call fails; and unless every rank has returned from every layer, a step that is
      not waiting is enabled. */
  lemma PlanCompletes(c: Cfg, plan: seq<Task>, run: seq<Good>, labels: seq<Label>, i: nat)
    requires GoodRun(c, plan, run, labels) && i < |run|
    ensures GoodShape(c, run[0]) && GoodShape(c, run[i])
    ensures WorkSteps(c, run, labels, i) <= Left(c, plan, run[0])
    ensures run[i].s.latch.attempts == [] && !Poisoned(run[i].s)
    ensures forall r | 0 <= r < c.ranks :: !run[i].s.api[r].Failed?
    ensures !Finished(plan, run[i]) ==> CanMove(c, plan, run[i])
  {
    hide Inv, GoodInit, GoodStepAt;
    GoodRunInv(c, plan, run, labels, i);
    WorkBound(c, plan, run, labels, i);
    forall r | 0 <= r < c.ranks ensures !run[i].s.api[r].Failed? {
      assert ApiGood(c, plan, run[i].s.m, run[i].begun, r, run[i].drivers[r], run[i].s.api[r]);
    }
    if !Finished(plan, run[i]) {
      NeverStuck(c, plan, run[i]);
    }
  }
}
