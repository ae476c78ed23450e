/**
 What holds over whole runs of the transport, including runs with failing copies, throwing writers, timeouts,
 mismatched calls and closed ranks.
 */
module TransportTheorems {
  import opened TransportModel
  import opened TransportInvariant
  import opened TransportLatch
  import opened TransportProofs
  import PoisonLatch

  // ----- the refinement: what a returning wait hands over

  /** Entry by entry, the nested copy loop stores the first x experts and keeps the rest. */
  lemma {:induction false} CopyLoopEntry(c: Cfg, t: Table, p: map<(nat, nat), seq<seq<Block>>>, e: nat, r: nat,
                                         x: nat, k: nat, kind: nat, expert: nat)
    requires TableShape(c, t) && k <= c.Kinds() && kind < c.Kinds() && expert < c.experts
    ensures var u := CopyLoop(c.Kinds(), t, p, e, r, x, k);
      TableShape(c, u)
      && u[kind][expert] == if expert < x || (expert == x && kind < k) then Made(p, e, expert, r, kind)
                            else t[kind][expert]
    decreases x, k
  {
    if k > 0 {
      CopyLoopEntry(c, t, p, e, r, x, k - 1, kind, expert);
    } else if x > 0 {
      CopyLoopEntry(c, t, p, e, r, x - 1, c.Kinds(), kind, expert);
    }
  }

  /** Whenever wait(e) has returned on a rank, for the first time for that epoch, it returned the layer id and
      expert count rank zero opened epoch e with and the byte count of that many experts, and the rank's table held
      exactly what the writer produced for (e, expert, rank) in entries 0..count-1 and what it held before the layer
      in every other entry. */
  lemma WaitReturnsTheLayer(c: Cfg, run: seq<State>, i: nat, j: nat)
    requires Run(c, run) && i < |run| && j < |run[i].m.h.results| && run[i].m.h.results[j].first
    ensures var h, entry := run[i].m.h, run[i].m.h.results[j];
      && entry.epoch in h.layers
      && h.layers[entry.epoch] == (entry.layer, entry.count)
      && entry.bytes == entry.count * c.ExpertBytes()
      && entry.rank < c.ranks && entry.count <= c.experts
      && TableShape(c, entry.before) && TableShape(c, entry.table)
      && (forall x | 0 <= x < entry.count ::
            (entry.epoch, x) in h.produced && HostShape(c, h.produced[(entry.epoch, x)]))
      && forall kind, x | 0 <= kind < c.Kinds() && 0 <= x < c.experts ::
           entry.table[kind][x] == if x < entry.count then h.produced[(entry.epoch, x)][entry.rank][kind]
                                   else entry.before[kind][x]
  {
    hide Init, Next, StepAt, Cells, Chain, Publications, Copies, Counters;
    RunKeeps(c, run, i);
    var h, entry := run[i].m.h, run[i].m.h.results[j];
    assert ReturnOk(c, h, entry);
    CopyLoopEntry(c, entry.before, h.produced, entry.epoch, entry.rank, entry.count, 0, 0, 0);
    forall kind, x | 0 <= kind < c.Kinds() && 0 <= x < c.experts
      ensures entry.table[kind][x] == if x < entry.count then h.produced[(entry.epoch, x)][entry.rank][kind]
                                      else entry.before[kind][x]
    {
      CopyLoopEntry(c, entry.before, h.produced, entry.epoch, entry.rank, entry.count, 0, kind, x);
      if x < entry.count {
        assert HostShape(c, h.produced[(entry.epoch, x)]);
      }
    }
  }

  /** Single copies rank r's device has executed for the current layer. */
  function CopiesMade(c: Cfg, m: Mem, r: nat): nat
    requires Shape(c, m) && r < c.ranks
  {
    m.h.acked[r] * c.Kinds() + m.h.done[r]
  }

  ghost predicate Grows(c: Cfg, m: Mem, t: Mem)
    requires Shape(c, m) && Shape(c, t)
  {
    && m.active <= t.active
    && m.producerDone <= t.producerDone
    && (forall r | 0 <= r < c.ranks ::
      && m.joinEpoch[r] <= t.joinEpoch[r]
      && m.consumerDone[r] <= t.consumerDone[r]
      && m.waitReturned[r] <= t.waitReturned[r])
    && (forall key | key in m.h.produced :: key in t.h.produced && t.h.produced[key] == m.h.produced[key])
    && (forall e | e in m.h.layers :: e in t.h.layers && t.h.layers[e] == m.h.layers[e])
    && m.h.results <= t.h.results
  }

  /** The rank's copy position is the same, or moved from the last kind of an expert to the start of the next. */
  predicate SameCopies(c: Cfg, m: Mem, t: Mem, r: nat)
    requires Shape(c, m) && Shape(c, t) && r < c.ranks
  {
    || (t.h.acked[r] == m.h.acked[r] && t.h.done[r] == m.h.done[r])
    || (t.h.acked[r] == m.h.acked[r] + 1 && t.h.done[r] == 0 && m.h.done[r] == c.Kinds())
  }

  /** What one step does to the epoch cells, the records and the copies; copied is the rank whose device executed a
      copy, or -1. */
  ghost predicate Effect(c: Cfg, m: Mem, t: Mem, copied: int)
    requires Shape(c, m) && Shape(c, t)
  {
    && Grows(c, m, t)
    && (t.active != m.active ==>
      && t.joinEpoch == m.joinEpoch
      && (forall r | 0 <= r < c.ranks :: m.waitReturned[r] == m.active && t.h.acked[r] == t.h.done[r] == 0))
    && (forall r | 0 <= r < c.ranks && r != copied ::
      t.gpu[r] == m.gpu[r] && (t.active == m.active ==> SameCopies(c, m, t, r)))
    && (0 <= copied < c.ranks ==>
      && t.active == m.active && m.stream[copied] != []
      && t.h.acked[copied] == m.h.acked[copied] && t.h.done[copied] == m.h.done[copied] + 1)
  }

  lemma SameCopiesCount(c: Cfg, m: Mem, t: Mem, r: nat)
    requires Shape(c, m) && Shape(c, t) && r < c.ranks && SameCopies(c, m, t, r)
    ensures CopiesMade(c, t, r) == CopiesMade(c, m, r)
  {
    assert (m.h.acked[r] + 1) * c.Kinds() == m.h.acked[r] * c.Kinds() + c.Kinds();
  }

  lemma JoinOpens(c: Cfg, m: Mem, poisoned: bool, r: nat, pc: JoinPc, timeout: bool)
    requires Shape(c, m) && Chain(c, m) && Cells(c, m) && r < c.ranks && JoinOk(c, m, r, pc) && pc.JoinPublish?
    ensures var t := JoinAct(c, m, poisoned, r, pc, timeout).m;
      Shape(c, t) && Effect(c, m, t, -1)
  {
  }

  lemma JoinPollsKeepMemory(c: Cfg, m: Mem, poisoned: bool, r: nat, pc: JoinPc, timeout: bool)
    requires Shape(c, m) && r < c.ranks && (pc.JoinBarrier? || pc.JoinFollow?)
    ensures var t := JoinAct(c, m, poisoned, r, pc, timeout).m; t == m || t == m.(h := m.h.(opening := true))
  {
  }

  lemma NoEffect(c: Cfg, m: Mem)
    requires Shape(c, m)
    ensures Effect(c, m, m, -1)
  {
  }

  lemma JoinPollsEffect(c: Cfg, m: Mem, poisoned: bool, r: nat, pc: JoinPc, timeout: bool)
    requires Shape(c, m) && r < c.ranks && (pc.JoinBarrier? || pc.JoinFollow?)
    ensures var t := JoinAct(c, m, poisoned, r, pc, timeout).m;
      Shape(c, t) && Effect(c, m, t, -1)
  {
    JoinPollsKeepMemory(c, m, poisoned, r, pc, timeout);
    NoEffect(c, m);
  }

  lemma JoinRewritesEffect(c: Cfg, m: Mem, poisoned: bool, r: nat, pc: JoinPc, timeout: bool)
    requires Shape(c, m) && r < c.ranks && !pc.JoinPublish? && !pc.JoinBarrier? && !pc.JoinFollow? && !pc.JoinStore?
    ensures var t := JoinAct(c, m, poisoned, r, pc, timeout).m;
      Shape(c, t) && Effect(c, m, t, -1)
  {
    hide TableShape, HostShape, OpShape;
  }

  lemma JoinStoreEffect(c: Cfg, m: Mem, poisoned: bool, r: nat, pc: JoinPc, timeout: bool)
    requires Shape(c, m) && Chain(c, m) && r < c.ranks && JoinOk(c, m, r, pc) && pc.JoinStore?
    ensures var t := JoinAct(c, m, poisoned, r, pc, timeout).m;
      Shape(c, t) && Effect(c, m, t, -1)
  {
  }

  lemma JoinEffect(c: Cfg, m: Mem, poisoned: bool, r: nat, pc: JoinPc, timeout: bool)
    requires Shape(c, m) && Chain(c, m) && Cells(c, m) && r < c.ranks && JoinOk(c, m, r, pc)
    ensures var t := JoinAct(c, m, poisoned, r, pc, timeout).m;
      Shape(c, t) && Effect(c, m, t, -1)
  {
    if pc.JoinPublish? {
      JoinOpens(c, m, poisoned, r, pc, timeout);
    } else if pc.JoinBarrier? || pc.JoinFollow? {
      JoinPollsEffect(c, m, poisoned, r, pc, timeout);
    } else if pc.JoinStore? {
      JoinStoreEffect(c, m, poisoned, r, pc, timeout);
    } else {
      JoinRewritesEffect(c, m, poisoned, r, pc, timeout);
    }
  }

  lemma WriterReturnEffect(c: Cfg, m: Mem, poisoned: bool, pc: ProdPc, timeout: bool)
    requires Shape(c, m) && Publications(c, m) && ProdShape(c, pc) && ProducerOk(c, m, pc) && pc.ProdWrite?
    ensures var t := ProducerAct(c, m, poisoned, pc, timeout).m;
      Shape(c, t) && Effect(c, m, t, -1)
  {
  }

  lemma PublishingEffect(c: Cfg, m: Mem, poisoned: bool, pc: ProdPc, timeout: bool)
    requires Shape(c, m) && ProdShape(c, pc) && (pc.ProdFetch? || pc.ProdEpoch? || pc.ProdExpert? || pc.ProdSequence?)
    ensures var t := ProducerAct(c, m, poisoned, pc, timeout).m;
      Shape(c, t) && Effect(c, m, t, -1)
  {
  }

  lemma PollsKeepMemory(c: Cfg, m: Mem, poisoned: bool, pc: ProdPc, timeout: bool)
    requires Shape(c, m) && ProdShape(c, pc) && (pc.ProdBarrier? || pc.ProdAck? || pc.ProdDrain?)
    ensures ProducerAct(c, m, poisoned, pc, timeout).m == m
  {
  }

  lemma ProducerPollsEffect(c: Cfg, m: Mem, poisoned: bool, pc: ProdPc, timeout: bool)
    requires Shape(c, m) && ProdShape(c, pc) && (pc.ProdBarrier? || pc.ProdAck? || pc.ProdDrain?)
    ensures var t := ProducerAct(c, m, poisoned, pc, timeout).m;
      Shape(c, t) && Effect(c, m, t, -1)
  {
    PollsKeepMemory(c, m, poisoned, pc, timeout);
    NoEffect(c, m);
  }

  lemma ProducerCellsEffect(c: Cfg, m: Mem, poisoned: bool, pc: ProdPc, timeout: bool)
    requires Shape(c, m) && Chain(c, m) && ProdShape(c, pc) && ProducerOk(c, m, pc)
    requires !IsWriting(pc) && !pc.ProdBarrier? && !pc.ProdAck? && !pc.ProdDrain?
    ensures var t := ProducerAct(c, m, poisoned, pc, timeout).m;
      Shape(c, t) && Effect(c, m, t, -1)
  {
    hide TableShape, HostShape, OpShape;
  }

  lemma ProducerEffect(c: Cfg, m: Mem, poisoned: bool, pc: ProdPc, timeout: bool)
    requires Shape(c, m) && Chain(c, m) && Publications(c, m) && ProdShape(c, pc) && ProducerOk(c, m, pc)
    ensures var t := ProducerAct(c, m, poisoned, pc, timeout).m;
      Shape(c, t) && Effect(c, m, t, -1)
  {
    if pc.ProdWrite? {
      WriterReturnEffect(c, m, poisoned, pc, timeout);
    } else if IsWriting(pc) {
      PublishingEffect(c, m, poisoned, pc, timeout);
    } else if pc.ProdBarrier? || pc.ProdAck? || pc.ProdDrain? {
      ProducerPollsEffect(c, m, poisoned, pc, timeout);
    } else {
      ProducerCellsEffect(c, m, poisoned, pc, timeout);
    }
  }

  lemma WaitEffect(c: Cfg, m: Mem, poisoned: bool, r: nat, pc: WaitPc, timeout: bool)
    requires Shape(c, m) && Chain(c, m) && r < c.ranks && WaitOk(c, m, r, pc)
    ensures var t := WaitAct(c, m, poisoned, r, pc, timeout).m;
      Shape(c, t) && Effect(c, m, t, -1)
  {
    hide TableShape, HostShape, OpShape;
  }

  lemma CloseEffect(c: Cfg, m: Mem, poisoned: bool, r: nat, pc: ClosePc)
    requires Shape(c, m) && r < c.ranks
    ensures var t := CloseAct(c, m, poisoned, r, pc).m;
      Shape(c, t) && Effect(c, m, t, -1)
  {
  }

  lemma AckEffect(c: Cfg, m: Mem, poisoned: bool, r: nat, k: Cons, fault: Fault)
    requires Shape(c, m) && Chain(c, m) && Copies(c, m) && r < c.ranks && ConsOk(c, m, r, k) && k.pc.CAck?
    ensures var t := ConsAct(c, m, poisoned, r, k, fault).m;
      Shape(c, t) && Effect(c, m, t, -1)
  {
    assert m.h.done[r] == c.Kinds();
  }

  lemma IssueEffect(c: Cfg, m: Mem, poisoned: bool, r: nat, k: Cons, fault: Fault)
    requires Shape(c, m) && r < c.ranks && ConsOk(c, m, r, k) && k.pc.CIssue?
    ensures var t := ConsAct(c, m, poisoned, r, k, fault).m;
      Shape(c, t) && Effect(c, m, t, -1)
  {
  }

  lemma CellEffect(c: Cfg, m: Mem, poisoned: bool, r: nat, k: Cons, fault: Fault)
    requires Shape(c, m) && Chain(c, m) && r < c.ranks && ConsOk(c, m, r, k) && (k.pc.CBytes? || k.pc.CDone?)
    ensures var t := ConsAct(c, m, poisoned, r, k, fault).m;
      Shape(c, t) && Effect(c, m, t, -1)
  {
  }

  lemma ConsEffect(c: Cfg, m: Mem, poisoned: bool, r: nat, k: Cons, fault: Fault)
    requires Shape(c, m) && Chain(c, m) && Copies(c, m) && r < c.ranks && ConsOk(c, m, r, k)
    ensures var t := ConsAct(c, m, poisoned, r, k, fault).m;
      Shape(c, t) && Effect(c, m, t, -1)
  {
    hide Chain, Copies;
    if k.pc.CAck? {
      AckEffect(c, m, poisoned, r, k, fault);
    } else if k.pc.CIssue? {
      IssueEffect(c, m, poisoned, r, k, fault);
    } else if k.pc.CBytes? || k.pc.CDone? {
      CellEffect(c, m, poisoned, r, k, fault);
    } else {
      assert ConsAct(c, m, poisoned, r, k, fault).m == m;
    }
  }

  lemma ApiEffect(c: Cfg, m: Mem, poisoned: bool, r: nat, pc: Api, timeout: bool)
    requires Shared(c, m) && r < c.ranks && ApiOk(c, m, r, pc) && !Resting(pc)
    ensures var t := ApiAct(c, m, poisoned, r, pc, timeout).m;
      Shape(c, t) && Effect(c, m, t, -1)
  {
    hide Chain, Cells, Counters, Copies, Publications, Results, Effect;
    match pc {
      case InJoin(join) => JoinEffect(c, m, poisoned, r, join, timeout);
      case InProducer(prod) => ProducerEffect(c, m, poisoned, prod, timeout);
      case InWait(wait) => WaitEffect(c, m, poisoned, r, wait, timeout);
      case InClose(close) => CloseEffect(c, m, poisoned, r, close);
    }
  }

  function CopiedBy(l: Label): int {
    if l.CopyRuns? then l.r else -1
  }

  lemma CallEffect(c: Cfg, s: State, l: Label, t: State)
    requires StateShape(c, s) && (l.CallJoin? || l.CallProducer? || l.CallWait? || l.CallClose?)
    requires CallSteps(c, s, l, t)
    ensures Effect(c, s.m, t.m, -1)
  {
    NoEffect(c, s.m);
  }

  /** The constructor of a new transport and the end of a failed call store nothing shared. */
  lemma RenewEffect(c: Cfg, s: State, l: Label, t: State)
    requires StateShape(c, s) && Step(c, s, l, t)
    requires l.FailEnds? || l.Construct? || l.LoadSequence? || l.StartThread?
    ensures Shape(c, t.m) && Effect(c, s.m, t.m, -1)
  {
    NoEffect(c, s.m);
  }

  lemma ApiStepEffect(c: Cfg, s: State, r: nat, timeout: bool, t: State)
    requires Inv(c, s) && StateShape(c, s) && ApiSteps(c, s, r, timeout, t)
    ensures Shape(c, t.m) && Effect(c, s.m, t.m, -1)
  {
    hide Shared, Effect;
    ApiEffect(c, s.m, Poisoned(s), r, s.api[r], timeout);
  }

  lemma WriterEffect(c: Cfg, s: State, rank: nat, kind: nat, block: Block, t: State)
    requires StateShape(c, s) && WriterStoreSteps(c, s, rank, kind, block, t)
    ensures Shape(c, t.m) && Effect(c, s.m, t.m, -1)
  {
    NoEffect(c, s.m);
  }

  lemma ThrowEffect(c: Cfg, s: State, t: State)
    requires StateShape(c, s) && WriterThrows(c, s, t)
    ensures Effect(c, s.m, t.m, -1)
  {
    NoEffect(c, s.m);
  }

  lemma ConsStepEffect(c: Cfg, s: State, r: nat, fault: Fault, t: State)
    requires Inv(c, s) && StateShape(c, s) && ConsSteps(c, s, r, fault, t)
    ensures Shape(c, t.m) && Effect(c, s.m, t.m, -1)
  {
    hide Chain, Cells, Counters, Copies, Publications, Results, Effect;
    ConsEffect(c, s.m, Poisoned(s), r, s.cons[r], fault);
  }

  lemma CopyEffect(c: Cfg, s: State, r: nat, t: State)
    requires StateShape(c, s) && CopySteps(c, s, r, t)
    ensures Shape(c, t.m) && Effect(c, s.m, t.m, r)
  {
  }

  lemma LatchEffect(c: Cfg, s: State, step: PoisonLatch.Step, t: State)
    requires StateShape(c, s) && LatchSteps(s, step, t)
    ensures Effect(c, s.m, t.m, -1)
  {
    NoEffect(c, s.m);
  }

  /** Every step: the epoch cells of the chain only grow, what was recorded as produced, opened or returned is never
      rewritten, the active epoch advances only when every rank has returned from it, a GPU table changes only when its
      device executes a copy, and executing a copy is what counts copies, one by one, from zero at each layer. */
  lemma StepEffect(c: Cfg, s: State, l: Label, t: State)
    requires Inv(c, s) && StateShape(c, s) && Step(c, s, l, t)
    ensures Shape(c, t.m) && Effect(c, s.m, t.m, CopiedBy(l))
  {
    hide Shared, ApiOk, ConsOk, Grows, SameCopies;
    match l {
      case CallJoin(_, _, _, _) => CallEffect(c, s, l, t);
      case CallProducer(_, _, _) => CallEffect(c, s, l, t);
      case CallWait(_, _) => CallEffect(c, s, l, t);
      case CallClose(_) => CallEffect(c, s, l, t);
      case FailEnds(_) => RenewEffect(c, s, l, t);
      case Construct(_) => RenewEffect(c, s, l, t);
      case LoadSequence(_) => RenewEffect(c, s, l, t);
      case StartThread(_) => RenewEffect(c, s, l, t);
      case ApiStep(r, timeout) => ApiStepEffect(c, s, r, timeout, t);
      case WriterStore(rank, kind, block) => WriterEffect(c, s, rank, kind, block, t);
      case WriterThrow => ThrowEffect(c, s, t);
      case ConsStep(r, fault) => ConsStepEffect(c, s, r, fault, t);
      case CopyRuns(r) => CopyEffect(c, s, r, t);
      case LatchStep(step) => LatchEffect(c, s, step, t);
    }
  }

  lemma EffectCounts(c: Cfg, m: Mem, t: Mem, copied: int, r: nat)
    requires Shape(c, m) && Shape(c, t) && Effect(c, m, t, copied) && r < c.ranks
    ensures if copied == r then CopiesMade(c, t, r) == CopiesMade(c, m, r) + 1
            else if t.active != m.active then CopiesMade(c, t, r) == 0
            else CopiesMade(c, t, r) == CopiesMade(c, m, r)
  {
    if copied != r && t.active == m.active {
      SameCopiesCount(c, m, t, r);
    }
  }

  lemma RunEffect(c: Cfg, run: seq<State>, i: nat) returns (l: Label)
    requires Run(c, run) && i + 1 < |run|
    ensures Step(c, run[i], l, run[i + 1]) && Inv(c, run[i])
    ensures Effect(c, run[i].m, run[i + 1].m, CopiedBy(l))
  {
    hide Shared, ApiOk, ConsOk, Step, Effect;
    RunKeeps(c, run, i);
    assert StepAt(c, run, i);
    l :| Step(c, run[i], l, run[i + 1]);
    StepEffect(c, run[i], l, run[i + 1]);
  }

  /** Where rank r's copying stands: the copy executed next, and the count when the copy thread has finished. */
  lemma CopyPosition(c: Cfg, m: Mem, r: nat)
    requires Shape(c, m) && Counters(c, m) && Copies(c, m) && Publications(c, m) && r < c.ranks
    ensures m.stream[r] != [] ==>
      && m.h.done[r] < c.Kinds() && m.h.acked[r] < m.h.count
      && m.stream[r][0] == Op(c.SlotOf(m.h.acked[r]), m.h.done[r], m.h.acked[r])
    ensures m.consumerDone[r] == m.active ==> CopiesMade(c, m, r) == m.h.count * c.Kinds()
  {
    if m.stream[r] != [] {
      OldestCopy(c, m, r);
    }
  }

  /** Each (expert, kind) is copied once, in the order of the plain nested loop: the copy executed at count
      expert * kinds + kind is that of (expert, kind) from the expert's slot, executing it raises the rank's count by
      one, opening a layer resets it, nothing else changes it, and when the copy thread has finished the layer it is
      experts times kinds. */
  lemma CopiedOnce(c: Cfg, run: seq<State>, i: nat, r: nat) returns (l: Label)
    requires Run(c, run) && i + 1 < |run| && r < c.ranks
    ensures Step(c, run[i], l, run[i + 1])
    ensures var m, t := run[i].m, run[i + 1].m;
      && (if l == CopyRuns(r) then CopiesMade(c, t, r) == CopiesMade(c, m, r) + 1
          else if t.active != m.active then CopiesMade(c, t, r) == 0
          else CopiesMade(c, t, r) == CopiesMade(c, m, r))
      && (l == CopyRuns(r) ==>
            && m.stream[r] != [] && m.h.done[r] < c.Kinds() && m.h.acked[r] < m.h.count
            && m.stream[r][0] == Op(c.SlotOf(m.h.acked[r]), m.h.done[r], m.h.acked[r]))
      && (m.consumerDone[r] == m.active ==> CopiesMade(c, m, r) == m.h.count * c.Kinds())
  {
    hide Init, Next, Cells, Results;
    l := RunEffect(c, run, i);
    EffectCounts(c, run[i].m, run[i + 1].m, CopiedBy(l), r);
    CopyPosition(c, run[i].m, r);
  }

  lemma GrowsTransitive(c: Cfg, m: Mem, t: Mem, u: Mem)
    requires Shape(c, m) && Shape(c, t) && Shape(c, u) && Grows(c, m, t) && Grows(c, t, u)
    ensures Grows(c, m, u)
  {
  }

  lemma StepGrows(c: Cfg, run: seq<State>, i: nat)
    requires Run(c, run) && i + 1 < |run|
    ensures Grows(c, run[i].m, run[i + 1].m)
  {
    hide Init, Next, Step, Grows, Inv;
    var l := RunEffect(c, run, i);
  }

  /** Over a whole run the cells and records only grow. */
  lemma {:induction false} RunGrows(c: Cfg, run: seq<State>, i: nat, j: nat)
    requires Run(c, run) && i <= j < |run|
    ensures Grows(c, run[i].m, run[j].m)
    decreases j
  {
    hide Init, Next, StepAt;
    if i < j {
      RunGrows(c, run, i, j - 1);
      StepGrows(c, run, j - 1);
      GrowsTransitive(c, run[i].m, run[j - 1].m, run[j].m);
    }
  }

  /** A rank's device has copies to execute only while the rank works on a layer it has not returned from. */
  lemma CopiesNeedOpenLayer(c: Cfg, m: Mem, r: nat)
    requires Shape(c, m) && Chain(c, m) && Counters(c, m) && Copies(c, m) && r < c.ranks && m.stream[r] != []
    ensures m.joinEpoch[r] == m.active && m.waitReturned[r] != m.joinEpoch[r]
  {
    assert m.h.issued[r] > 0;
  }

  /** One step leaves a rank's table alone when the rank has returned from every layer it joined. */
  lemma TableStep(c: Cfg, run: seq<State>, i: nat, r: nat)
    requires Run(c, run) && i + 1 < |run| && r < c.ranks
    requires run[i].m.waitReturned[r] == run[i].m.joinEpoch[r] == run[i + 1].m.joinEpoch[r]
    ensures run[i + 1].m.gpu[r] == run[i].m.gpu[r]
    ensures run[i + 1].m.waitReturned[r] >= run[i + 1].m.joinEpoch[r]
  {
    hide Init, Next, StepAt, Step;
    var l := RunEffect(c, run, i);
    if CopiedBy(l) == r {
      CopiesNeedOpenLayer(c, run[i].m, r);
    }
  }

  /** In every reachable state the epoch cells are chained and hold the active epoch or the one before it, so no two
      ranks are more than one layer apart. */
  lemma EpochChain(c: Cfg, run: seq<State>, i: nat, r: nat)
    requires Run(c, run) && i < |run| && r < c.ranks
    ensures var m := run[i].m;
      && m.waitReturned[r] <= m.consumerDone[r] <= m.joinEpoch[r] <= m.active
      && m.waitReturned[r] <= m.producerDone <= m.active
      && (m.waitReturned[r] == m.h.prev || m.waitReturned[r] == m.active)
      && (m.joinEpoch[r] == m.h.prev || m.joinEpoch[r] == m.active)
      && m.h.prev <= m.active
  {
    hide Init, Next, StepAt, Cells, Publications, Copies, Counters, Results;
    RunKeeps(c, run, i);
    var m := run[i].m;
    assert InPair(m.h, m.active, m.joinEpoch[r]) && InPair(m.h, m.active, m.waitReturned[r]);
  }

  /** After a wait has returned, the rank's table stays as it is until the rank joins again. */
  lemma {:induction false} TableStays(c: Cfg, run: seq<State>, i: nat, j: nat, r: nat)
    requires Run(c, run) && i <= j < |run| && r < c.ranks
    requires run[i].m.waitReturned[r] == run[i].m.joinEpoch[r] == run[j].m.joinEpoch[r]
    ensures run[j].m.gpu[r] == run[i].m.gpu[r]
    ensures run[j].m.waitReturned[r] == run[j].m.joinEpoch[r]
    decreases j
  {
    hide Run, Step;
    if i < j {
      RunGrows(c, run, i, j - 1);
      StepGrows(c, run, j - 1);
      TableStays(c, run, i, j - 1, r);
      TableStep(c, run, j - 1, r);
      EpochChain(c, run, j, r);
    }
  }

  /** A rank that has returned from the active layer has all of it in its table. */
  lemma ReturnedNow(c: Cfg, m: Mem, r: nat, kind: nat, x: nat)
    requires Shape(c, m) && Chain(c, m) && Cells(c, m) && Counters(c, m) && Copies(c, m) && Publications(c, m)
    requires r < c.ranks && kind < c.Kinds() && m.waitReturned[r] == m.joinEpoch[r] == m.active > 0
    ensures m.active in m.h.layers
    ensures x < m.h.layers[m.active].1 ==>
      && x < c.experts && (m.active, x) in m.h.produced && HostShape(c, m.h.produced[(m.active, x)])
      && m.gpu[r][kind][x] == m.h.produced[(m.active, x)][r][kind]
  {
    if x < m.h.count {
      CopyLoopEntry(c, m.h.start[r], m.h.produced, m.active, r, m.h.count, 0, kind, x);
      assert m.h.acked[r] == m.h.count && m.h.issued[r] == 0;
    }
  }

  lemma CallCells(c: Cfg, s: State, l: Label, t: State)
    requires StateShape(c, s) && Step(c, s, l, t) && !l.ApiStep? && !l.ConsStep?
    ensures t.m.joinEpoch == s.m.joinEpoch && t.m.waitReturned == s.m.waitReturned
    ensures t.m.active == s.m.active && t.m.producerDone == s.m.producerDone && t.m.consumerDone == s.m.consumerDone
  {
  }

  lemma ApiCells(c: Cfg, m: Mem, poisoned: bool, r: nat, pc: Api, timeout: bool)
    requires Shape(c, m) && r < c.ranks && ApiShape(c, pc) && !Resting(pc)
    ensures var t := ApiAct(c, m, poisoned, r, pc, timeout).m;
      t.joinEpoch == m.joinEpoch || t.waitReturned == m.waitReturned
  {
  }

  lemma ConsCells(c: Cfg, m: Mem, poisoned: bool, r: nat, k: Cons, fault: Fault)
    requires Shape(c, m) && r < c.ranks && ConsShape(c, k)
    ensures var t := ConsAct(c, m, poisoned, r, k, fault).m;
      && t.joinEpoch == m.joinEpoch && t.waitReturned == m.waitReturned
      && t.active == m.active && t.producerDone == m.producerDone
  {
  }

  /** No step stores both a join epoch and a returned epoch. */
  lemma OneEpochCell(c: Cfg, s: State, l: Label, t: State)
    requires StateShape(c, s) && Step(c, s, l, t)
    ensures t.m.joinEpoch == s.m.joinEpoch || t.m.waitReturned == s.m.waitReturned
  {
    if l.ApiStep? {
      ApiCells(c, s.m, Poisoned(s), l.r, s.api[l.r], l.timeout);
    } else if l.ConsStep? {
      ConsCells(c, s.m, Poisoned(s), l.r, s.cons[l.r], l.fault);
    } else {
      CallCells(c, s, l, t);
    }
  }

  /** The step that completes a rank's return from an epoch is taken while that epoch is active. */
  lemma ReturnsWhileActive(c: Cfg, m: Mem, t: Mem, copied: int, r: nat)
    requires Shape(c, m) && Chain(c, m) && Shape(c, t) && Chain(c, t) && Effect(c, m, t, copied) && r < c.ranks
    requires t.joinEpoch == m.joinEpoch || t.waitReturned == m.waitReturned
    requires t.waitReturned[r] == t.joinEpoch[r] && !(m.waitReturned[r] == m.joinEpoch[r] == t.joinEpoch[r])
    ensures t.waitReturned[r] == t.joinEpoch[r] == t.active
  {
    assert InPair(m.h, m.active, m.waitReturned[r]) && InPair(m.h, m.active, m.joinEpoch[r]);
  }

  /** The layer rank r joined last is in its table, as the writer left it, at (kind, x). */
  ghost predicate Holds(c: Cfg, m: Mem, r: nat, kind: nat, x: nat)
    requires Shape(c, m) && r < c.ranks && kind < c.Kinds()
  {
    var e := m.joinEpoch[r];
    && e in m.h.layers
    && (x < m.h.layers[e].1 ==>
          && x < c.experts && (e, x) in m.h.produced && HostShape(c, m.h.produced[(e, x)])
          && m.gpu[r][kind][x] == m.h.produced[(e, x)][r][kind])
  }

  /** A wait that completes the rank's return leaves the layer in the table. */
  lemma TableGetsLayer(c: Cfg, run: seq<State>, j: nat, r: nat, kind: nat, x: nat)
    requires Run(c, run) && 0 < j < |run| && r < c.ranks && kind < c.Kinds()
    requires run[j].m.waitReturned[r] == run[j].m.joinEpoch[r] > 0
    requires !(run[j - 1].m.waitReturned[r] == run[j - 1].m.joinEpoch[r] == run[j].m.joinEpoch[r])
    ensures Holds(c, run[j].m, r, kind, x)
  {
    hide Init, Next, StepAt, Step, Effect, Chain, Cells, Counters, Copies, Publications, Results, ApiOk, ConsOk;
    var l := RunEffect(c, run, j - 1);
    RunKeeps(c, run, j);
    OneEpochCell(c, run[j - 1], l, run[j]);
    ReturnsWhileActive(c, run[j - 1].m, run[j].m, CopiedBy(l), r);
    ReturnedNow(c, run[j].m, r, kind, x);
  }

  lemma TableKeepsLayer(c: Cfg, run: seq<State>, j: nat, r: nat, kind: nat, x: nat)
    requires Run(c, run) && 0 < j < |run| && r < c.ranks && kind < c.Kinds()
    requires run[j - 1].m.waitReturned[r] == run[j - 1].m.joinEpoch[r] == run[j].m.joinEpoch[r]
    requires Holds(c, run[j - 1].m, r, kind, x)
    ensures Holds(c, run[j].m, r, kind, x)
  {
    hide Init, Next, StepAt, Step;
    StepGrows(c, run, j - 1);
    TableStep(c, run, j - 1, r);
  }

  lemma {:induction false} TableHolds(c: Cfg, run: seq<State>, j: nat, r: nat, kind: nat, x: nat)
    requires Run(c, run) && j < |run| && r < c.ranks && kind < c.Kinds()
    requires run[j].m.waitReturned[r] == run[j].m.joinEpoch[r] > 0
    ensures Holds(c, run[j].m, r, kind, x)
  {
    hide Next, StepAt, Holds;
    if run[j - 1].m.waitReturned[r] == run[j - 1].m.joinEpoch[r] == run[j].m.joinEpoch[r] {
      TableHolds(c, run, j - 1, r, kind, x);
      TableKeepsLayer(c, run, j, r, kind, x);
    } else {
      TableGetsLayer(c, run, j, r, kind, x);
    }
  }

  /** From the moment a rank's wait for an epoch returns until the rank joins again, its table holds exactly what the
      writer produced for that epoch and rank, for every expert of the layer. */
  lemma TableHoldsLayer(c: Cfg, run: seq<State>, j: nat, r: nat, kind: nat, x: nat)
    requires Run(c, run) && j < |run| && r < c.ranks && kind < c.Kinds()
    requires run[j].m.waitReturned[r] == run[j].m.joinEpoch[r] > 0
    ensures var m, e := run[j].m, run[j].m.joinEpoch[r];
      && e in m.h.layers
      && (x < m.h.layers[e].1 ==>
            && x < c.experts && (e, x) in m.h.produced && HostShape(c, m.h.produced[(e, x)])
            && m.gpu[r][kind][x] == m.h.produced[(e, x)][r][kind])
  {
    TableHolds(c, run, j, r, kind, x);
  }

  // ----- slot reuse

  /** The copy thread has seen a new sequence and not yet issued the copies. */
  predicate Accepting(pc: ConsPc) {
    pc.CPoll? && (pc.stage.PEpoch? || pc.stage.PExpert? || pc.stage.PConfirm?)
  }

  /** No copy thread or device touches the slot of the expert to be published next. */
  lemma FreeSlotIdle(c: Cfg, m: Mem, x: nat, r: nat, k: Cons)
    requires Shape(c, m) && Counters(c, m) && Copies(c, m) && r < c.ranks && ConsOk(c, m, r, k)
    requires SlotFree(c, m, x) && m.h.published == x
    ensures forall i | 0 <= i < |m.stream[r]| :: m.stream[r][i].slot != c.SlotOf(x)
    ensures k.pc.CIssue? || k.pc.CEvent? || k.pc.CAck? || Accepting(k.pc) ==> c.SlotOf(k.pc.x) != c.SlotOf(x)
    ensures forall y | m.h.acked[r] <= y < m.h.published :: c.SlotOf(y) != c.SlotOf(x)
  {
    forall y | m.h.acked[r] <= y < m.h.published ensures c.SlotOf(y) != c.SlotOf(x) {
      FreeSlotUnused(c, m, x, r, y);
    }
  }

  /** While the writer runs on the slot of expert x, no rank's device has a copy from that slot outstanding, no live
      copy thread is handling a publication in it, and every published expert some rank has not acknowledged lies in
      another slot. */
  lemma WriterSlotUnused(c: Cfg, run: seq<State>, i: nat, r: nat)
    requires Run(c, run) && i < |run| && r < c.ranks
    requires run[i].api[0].InProducer? && run[i].api[0].prod.ProdWrite?
    ensures var s, slot := run[i], c.SlotOf(run[i].api[0].prod.x);
      && (forall k | 0 <= k < |s.m.stream[r]| :: s.m.stream[r][k].slot != slot)
      && (s.cons[r].pc.CIssue? || s.cons[r].pc.CEvent? || s.cons[r].pc.CAck? ==> c.SlotOf(s.cons[r].pc.x) != slot)
      && (Accepting(s.cons[r].pc) ==> c.SlotOf(s.cons[r].pc.x) != slot)
      && (forall y | s.m.h.acked[r] <= y < s.m.h.published :: c.SlotOf(y) != slot)
  {
    hide Init, Next, StepAt, Cells, Results, Chain;
    RunKeeps(c, run, i);
    var s := run[i];
    assert ApiOk(c, s.m, 0, s.api[0]);
    FreeSlotIdle(c, s.m, s.api[0].prod.x, r, s.cons[r]);
  }

  // ----- publications are read whole

  /** A copy thread that has seen a new ready sequence always finds the epoch and the expert id of that same
      publication, before and after each of its separate loads, so neither comparison can fail. */
  lemma AcceptedIsWhole(c: Cfg, run: seq<State>, i: nat, r: nat)
    requires Run(c, run) && i < |run| && r < c.ranks && Accepting(run[i].cons[r].pc)
    ensures var m, pc := run[i].m, run[i].cons[r].pc;
      var slot := c.SlotOf(pc.x);
      && m.readySequence[slot] == pc.stage.sq
      && m.readyEpoch[slot] == pc.ep == m.active
      && m.readyExpert[slot] == pc.x
      && (pc.ep, pc.x) in m.h.produced && m.host[slot] == m.h.produced[(pc.ep, pc.x)]
  {
    hide Init, Next, StepAt, Cells, Results, Chain;
    RunKeeps(c, run, i);
    var m := run[i].m;
    assert ConsOk(c, m, r, run[i].cons[r]);
    NewSequence(c, m, r);
    assert InSlot(c, m, m.h.acked[r]);
  }

  lemma {:induction false} SeqSame(c: Cfg, base: nat, seq0: seq<nat>, p: nat, q: nat, slot: nat)
    requires |seq0| == c.slots && slot < c.slots && p <= q
    requires forall y | p <= y < q :: c.SlotOf(y) != slot
    ensures SeqAt(c, base, seq0, q)[slot] == SeqAt(c, base, seq0, p)[slot]
    decreases q
  {
    if p < q {
      SeqSame(c, base, seq0, p, q - 1, slot);
    }
  }

  /** While a rank constructs its transport anew, the sequences loaded so far are those its old copy thread acknowledged
      last and those still ready, so the new copy thread goes on where the old one stopped; none of its copies is
      under way. */
  lemma NewTransportGoesOn(c: Cfg, run: seq<State>, i: nat, r: nat)
    requires Run(c, run) && i < |run| && r < c.ranks && run[i].api[r].Opening?
    ensures var m, pc := run[i].m, run[i].api[r];
      && m.readySequence == m.ack[r] && m.stream[r] == []
      && forall k | 0 <= k < pc.slot && k < c.slots :: pc.last[k] == m.readySequence[k]
  {
    hide Init, Next, StepAt, Cells, Results, Publications, Chain;
    RunKeeps(c, run, i);
    assert ApiOk(c, run[i].m, r, run[i].api[r]);
    BetweenAcked(c, run[i].m, r);
  }

  /** For every rank and slot: the ready sequence is the one the rank acknowledged last on that slot, or that of the
      one expert published there since, which is the slot's immediate next one for the rank; and a rank never has
      more publications outstanding than there are slots. */
  lemma ReadyIsLastOrNext(c: Cfg, run: seq<State>, i: nat, r: nat, slot: nat)
    requires Run(c, run) && i < |run| && r < c.ranks && slot < c.slots
    ensures var m := run[i].m;
      && m.h.published - m.h.acked[r] <= c.slots
      && (m.readySequence[slot] == m.ack[r][slot]
          || exists y :: m.h.acked[r] <= y < m.h.published && c.SlotOf(y) == slot
                      && m.readySequence[slot] == m.h.base + y + 1
                      && m.ack[r][slot] == SeqAt(c, m.h.base, m.h.seq0, y)[slot]
                      && forall z | m.h.acked[r] <= z < m.h.published && c.SlotOf(z) == slot :: z == y)
  {
    hide Init, Next, StepAt, Cells, Results, Chain, Publications, Copies;
    RunKeeps(c, run, i);
    var m := run[i].m;
    if y :| m.h.acked[r] <= y < m.h.published && c.SlotOf(y) == slot {
      forall z | m.h.acked[r] <= z < m.h.published && c.SlotOf(z) == slot ensures z == y {
        if z < y {
          ModDistinct(z, y, c.slots);
        } else if y < z {
          ModDistinct(y, z, c.slots);
        }
      }
      SeqFresh(c, m.h.base, m.h.seq0, y, m.h.published);
      SeqSame(c, m.h.base, m.h.seq0, m.h.acked[r], y, slot);
    } else {
      SeqSame(c, m.h.base, m.h.seq0, m.h.acked[r], m.h.published, slot);
    }
  }

  // ----- failure containment

  /** Rank zero is in or after a failing call, or closing or closed. */
  predicate Out(pc: Api) {
    pc.Failing? || pc.Failed? || pc.InClose? || pc.Closed?
  }

  predicate CopyThreadDead(k: Cons) {
    k.pc.CCatch? || k.pc.CGone?
  }

  /** Rank r's copy thread died while the rank was in the active layer. */
  predicate DiedInLayer(c: Cfg, s: State, r: nat)
    requires StateShape(c, s) && r < c.ranks
  {
    CopyThreadDead(s.cons[r]) && s.m.joinEpoch[r] == s.m.active != s.m.consumerDone[r]
  }

  /** Rank zero gave up on the active layer, the region is poisoned and rank zero not past the check at the start of a
      join, or some rank's copy thread died in the layer. */
  ghost predicate Stuck(c: Cfg, s: State)
    requires StateShape(c, s)
  {
    || (Out(s.api[0]) && s.m.producerDone != s.m.active)
    || (Poisoned(s) && !s.api[0].InJoin?)
    || exists r :: 0 <= r < c.ranks && DiedInLayer(c, s, r)
  }

  lemma OthersKeepActive(c: Cfg, m: Mem, poisoned: bool, r: nat, pc: Api, timeout: bool)
    requires Shape(c, m) && 0 < r < c.ranks && ApiOk(c, m, r, pc) && !Resting(pc)
    ensures var t := ApiAct(c, m, poisoned, r, pc, timeout).m;
      t.active == m.active && t.producerDone == m.producerDone
  {
  }

  lemma ProducerOutsideJoin(c: Cfg, m: Mem, poisoned: bool, pc: ProdPc, timeout: bool)
    requires Shape(c, m) && ProdShape(c, pc)
    ensures var act := ProducerAct(c, m, poisoned, pc, timeout);
      act.m.active == m.active && !act.pc.InJoin?
  {
  }

  lemma ZeroOutsideJoin(c: Cfg, m: Mem, poisoned: bool, pc: Api, timeout: bool)
    requires Shape(c, m) && ApiShape(c, pc) && !Resting(pc) && !pc.InJoin?
    ensures var act := ApiAct(c, m, poisoned, 0, pc, timeout);
      && act.m.active == m.active && !act.pc.InJoin?
      && (pc.InClose? ==> Out(act.pc))
      && (!pc.InProducer? ==> act.m.producerDone == m.producerDone)
  {
    hide ProducerAct;
    if pc.InProducer? {
      ProducerOutsideJoin(c, m, poisoned, pc.prod, timeout);
    }
  }

  lemma OutsideJoinAtApi(c: Cfg, s: State, r: nat, timeout: bool, t: State)
    requires Inv(c, s) && StateShape(c, s) && ApiSteps(c, s, r, timeout, t) && !s.api[0].InJoin?
    ensures t.m.active == s.m.active && (!s.api[0].InProducer? ==> t.m.producerDone == s.m.producerDone)
    ensures |t.api| == c.ranks && !t.api[0].InJoin? && (Out(s.api[0]) ==> Out(t.api[0]))
  {
    hide Shared, ApiAct;
    if r == 0 {
      ZeroOutsideJoin(c, s.m, Poisoned(s), s.api[0], timeout);
    } else {
      OthersKeepActive(c, s.m, Poisoned(s), r, s.api[r], timeout);
    }
  }

  /** Only a join of rank zero opens a layer, and only its run_producer ends one. */
  lemma OutsideJoin(c: Cfg, s: State, l: Label, t: State)
    requires Inv(c, s) && StateShape(c, s) && Step(c, s, l, t) && !s.api[0].InJoin?
    ensures t.m.active == s.m.active && (!s.api[0].InProducer? ==> t.m.producerDone == s.m.producerDone)
  {
    hide Shared, ApiSteps, ConsAct;
    if l.ApiStep? {
      OutsideJoinAtApi(c, s, l.r, l.timeout, t);
    } else if l.ConsStep? {
      ConsCells(c, s.m, Poisoned(s), l.r, s.cons[l.r], l.fault);
    } else {
      CallCells(c, s, l, t);
    }
  }

  /** A join called in a poisoned region is refused. */
  lemma JoinIsRefused(c: Cfg, s: State, l: Label, t: State)
    requires Inv(c, s) && StateShape(c, s) && Step(c, s, l, t) && Poisoned(s) && !s.api[0].InJoin?
    ensures |t.api| == c.ranks && !t.api[0].InJoin?
  {
    hide Shared, ApiSteps, ConsAct;
    if l.ApiStep? {
      OutsideJoinAtApi(c, s, l.r, l.timeout, t);
    }
  }

  /** Rank zero stays out of a layer it gave up on: its calls are refused, and between layers it is not. */
  lemma ZeroStaysOut(c: Cfg, s: State, l: Label, t: State)
    requires Inv(c, s) && StateShape(c, s) && FailuresKnown(s) && Step(c, s, l, t)
    requires Out(s.api[0]) && s.m.producerDone != s.m.active
    ensures |t.api| == c.ranks && Out(t.api[0])
  {
    hide Shared, ApiSteps, ConsAct;
    if l.ApiStep? {
      OutsideJoinAtApi(c, s, l.r, l.timeout, t);
    }
  }

  lemma ApiKeepsDone(c: Cfg, m: Mem, poisoned: bool, r: nat, pc: Api, timeout: bool)
    requires Shape(c, m) && r < c.ranks && ApiShape(c, pc) && !Resting(pc)
    ensures ApiAct(c, m, poisoned, r, pc, timeout).m.consumerDone == m.consumerDone
  {
  }

  lemma DeadAtConsStep(c: Cfg, s: State, q: nat, fault: Fault, t: State, r: nat)
    requires StateShape(c, s) && ConsSteps(c, s, q, fault, t) && r < c.ranks && CopyThreadDead(s.cons[r])
    ensures |t.cons| == |t.m.consumerDone| == c.ranks
    ensures CopyThreadDead(t.cons[r]) && t.m.consumerDone[r] == s.m.consumerDone[r]
  {
  }

  /** A copy thread that died in the layer is not replaced while the layer is active. */
  lemma DeadStays(c: Cfg, s: State, l: Label, t: State, r: nat)
    requires Inv(c, s) && StateShape(c, s) && Step(c, s, l, t) && r < c.ranks && DiedInLayer(c, s, r)
    ensures |t.cons| == |t.m.consumerDone| == c.ranks
    ensures CopyThreadDead(t.cons[r]) && t.m.consumerDone[r] == s.m.consumerDone[r]
  {
    hide LatchAfter, Shared, ConsSteps, ApiAct;
    assert ApiOk(c, s.m, r, s.api[r]);
    if l.ApiStep? {
      ApiKeepsDone(c, s.m, Poisoned(s), l.r, s.api[l.r], l.timeout);
    } else if l.ConsStep? {
      DeadAtConsStep(c, s, l.r, l.fault, t, r);
    } else {
      CallCells(c, s, l, t);
    }
  }

  lemma DiedStays(c: Cfg, s: State, l: Label, t: State, r: nat)
    requires Inv(c, s) && StateShape(c, s) && Step(c, s, l, t) && StateShape(c, t) && Chain(c, t.m)
    requires Effect(c, s.m, t.m, CopiedBy(l)) && r < c.ranks && DiedInLayer(c, s, r)
    ensures t.m.active == s.m.active && DiedInLayer(c, t, r)
  {
    hide Counters, Copies, Publications, Results, Cells, ApiOk, ConsOk, Step;
    assert s.m.waitReturned[r] <= s.m.consumerDone[r] && InPair(s.m.h, s.m.active, s.m.consumerDone[r]);
    assert InPair(t.m.h, t.m.active, t.m.joinEpoch[r]);
    DeadStays(c, s, l, t, r);
  }

  lemma StuckStays(c: Cfg, s: State, l: Label, t: State)
    requires Inv(c, s) && StateShape(c, s) && FailuresKnown(s) && Step(c, s, l, t) && Stuck(c, s)
    requires StateShape(c, t) && Chain(c, t.m) && Effect(c, s.m, t.m, CopiedBy(l))
    ensures t.m.active == s.m.active && Stuck(c, t)
  {
    hide Inv, Step, Chain, Effect, DiedInLayer, FailuresKnown;
    if Out(s.api[0]) && s.m.producerDone != s.m.active {
      ZeroStaysOut(c, s, l, t);
      OutsideJoin(c, s, l, t);
    } else if Poisoned(s) && !s.api[0].InJoin? {
      JoinIsRefused(c, s, l, t);
      OutsideJoin(c, s, l, t);
      PoisonStays(c, s, l, t);
    } else {
      var r :| 0 <= r < c.ranks && DiedInLayer(c, s, r);
      DiedStays(c, s, l, t, r);
    }
  }

  lemma StuckStep(c: Cfg, run: seq<State>, i: nat)
    requires Run(c, run) && i + 1 < |run| && Stuck(c, run[i])
    ensures run[i + 1].m.active == run[i].m.active && Stuck(c, run[i + 1])
  {
    hide Init, Next, StepAt, Step, Effect, ApiOk, ConsOk, Cells, Counters, Copies, Publications, Results, Stuck,
         FailuresKnown;
    var l := RunEffect(c, run, i);
    RunKeeps(c, run, i + 1);
    FailuresStayKnown(c, run, i);
    StuckStays(c, run[i], l, run[i + 1]);
  }

  /** Once rank zero has given up on a layer, or the region is poisoned with rank zero outside join, or a copy thread
      has died in the layer, no later epoch is ever opened, whatever calls the ranks go on making and whatever
      transports they construct anew. */
  lemma {:induction false} NoLaterEpoch(c: Cfg, run: seq<State>, i: nat, j: nat)
    requires Run(c, run) && i <= j < |run| && Stuck(c, run[i])
    ensures run[j].m.active == run[i].m.active && Stuck(c, run[j])
    decreases j
  {
    if i < j {
      NoLaterEpoch(c, run, i, j - 1);
      StuckStep(c, run, j - 1);
    }
  }

  /** A call of rank zero that has failed is the end of the epochs. */
  lemma FailedIsStuck(c: Cfg, run: seq<State>, i: nat)
    requires Run(c, run) && i < |run| && run[i].api[0].Failed?
    ensures Stuck(c, run[i])
  {
    FailuresStayKnown(c, run, i);
  }
}
