/**
 The invariant is kept by every step. Each thread's step is checked once against memory, its own facts and
 what the other threads rely on; that the others keep their facts then follows from what they rely on.
 */
module TransportProofs {
  import opened TransportModel
  import opened TransportInvariant
  import opened TransportLatch

  // ----- what a thread relies on while others move

  /** Rank zero's API thread alone moves the layer, the sequences, the ready slots and the host buffers. */
  ghost predicate RelyProducer(c: Cfg, m: Mem, t: Mem)
    requires Shape(c, m) && Shape(c, t)
  {
    && t.active == m.active && t.layer == m.layer && t.count == m.count && t.nextSequence == m.nextSequence
    && t.producerDone == m.producerDone && t.readySequence == m.readySequence
    && t.readyEpoch == m.readyEpoch && t.readyExpert == m.readyExpert && t.host == m.host
    && t.h.prev == m.h.prev && t.h.id == m.h.id && t.h.count == m.h.count && t.h.base == m.h.base
    && t.h.seq0 == m.h.seq0 && t.h.published == m.h.published && t.h.fetched == m.h.fetched
    && t.h.written == m.h.written && t.h.opening == m.h.opening && t.h.ran == m.h.ran
    && t.h.produced == m.h.produced
    && (forall j | 0 <= j < c.ranks ::
      && m.waitReturned[j] <= t.waitReturned[j]
      && m.joinEpoch[j] <= t.joinEpoch[j]
      && m.h.acked[j] <= t.h.acked[j]
      && forall slot | 0 <= slot < c.slots :: m.ack[j][slot] <= t.ack[j][slot])
  }

  ghost predicate RelyApi(c: Cfg, m: Mem, t: Mem, r: nat)
    requires Shape(c, m) && Shape(c, t) && r < c.ranks
  {
    && t.joinEpoch[r] == m.joinEpoch[r]
    && t.waitReturned[r] == m.waitReturned[r]
    && m.active <= t.active
    && m.consumerDone[r] <= t.consumerDone[r]
    && m.producerDone <= t.producerDone
    && (m.waitReturned[r] != m.active ==>
      && t.active == m.active && t.layer == m.layer && t.count == m.count
      && t.h.id == m.h.id && t.h.count == m.h.count && t.h.opening == m.h.opening
      && (m.consumerDone[r] == m.active ==> t.bytes[r] == m.bytes[r]))
    && (Between(m, r) ==> t.ack[r] == m.ack[r])
    && (r == 0 ==> RelyProducer(c, m, t))
  }

  ghost predicate RelyCons(c: Cfg, m: Mem, t: Mem, r: nat)
    requires Shape(c, m) && Shape(c, t) && r < c.ranks
  {
    && t.consumerDone[r] == m.consumerDone[r]
    && t.ack[r] == m.ack[r]
    && m.active <= t.active
    && (t.joinEpoch[r] == m.joinEpoch[r] || t.joinEpoch[r] == t.active)
    && (t.active == m.active ==> t.h.acked[r] == m.h.acked[r] && t.h.issued[r] == m.h.issued[r])
    && (t.active != m.active ==> t.h.acked[r] == 0 && t.h.issued[r] == 0)
    && (m.consumerDone[r] != m.active ==>
      && t.active == m.active && t.h.count == m.h.count && t.h.base == m.h.base
      && m.h.published <= t.h.published && t.bytes[r] == m.bytes[r])
    && (m.stream[r] == [] ==> t.stream[r] == [])
  }

  /** Every API thread but `api` and every copy thread but `cons` finds what it relies on. */
  ghost predicate Others(c: Cfg, m: Mem, t: Mem, api: int, cons: int)
    requires Shape(c, m) && Shape(c, t)
  {
    && (forall r | 0 <= r < c.ranks && r != api :: RelyApi(c, m, t, r))
    && (forall r | 0 <= r < c.ranks && r != cons :: RelyCons(c, m, t, r))
  }

  lemma StableJoin(c: Cfg, m: Mem, t: Mem, r: nat, pc: JoinPc)
    requires Shape(c, m) && Chain(c, m) && Shape(c, t) && Chain(c, t) && r < c.ranks
    requires JoinOk(c, m, r, pc) && RelyApi(c, m, t, r)
    ensures JoinOk(c, t, r, pc)
  {
  }

  lemma StableWait(c: Cfg, m: Mem, t: Mem, r: nat, pc: WaitPc)
    requires Shape(c, m) && Chain(c, m) && Shape(c, t) && r < c.ranks
    requires WaitOk(c, m, r, pc) && RelyApi(c, m, t, r)
    ensures WaitOk(c, t, r, pc)
  {
  }

  lemma StableRunning(c: Cfg, m: Mem, t: Mem, e: nat, n: nat)
    requires Shape(c, m) && Shape(c, t) && Chain(c, t) && Running(c, m, e, n) && RelyProducer(c, m, t)
    ensures Running(c, t, e, n)
  {
    forall j | 0 <= j < c.ranks ensures t.joinEpoch[j] == t.active {
      assert InPair(t.h, t.active, t.joinEpoch[j]);
      assert m.joinEpoch[j] <= t.joinEpoch[j];
    }
  }

  predicate IsWriting(pc: ProdPc) {
    pc.ProdWrite? || pc.ProdFetch? || pc.ProdEpoch? || pc.ProdExpert? || pc.ProdSequence?
  }

  predicate IsDraining(pc: ProdPc) {
    pc.ProdNextDrain? || pc.ProdDrain? || pc.ProdDone?
  }

  lemma StableWriting(c: Cfg, m: Mem, t: Mem, pc: ProdPc)
    requires Shape(c, m) && Shape(c, t) && Chain(c, t) && RelyProducer(c, m, t)
    requires ProdShape(c, pc) && IsWriting(pc) && ProducerOk(c, m, pc)
    ensures ProducerOk(c, t, pc)
  {
    StableRunning(c, m, t, pc.e, pc.n);
    assert SlotFree(c, t, pc.x);
  }

  lemma StableDraining(c: Cfg, m: Mem, t: Mem, pc: ProdPc)
    requires Shape(c, m) && Shape(c, t) && Chain(c, t) && Counters(c, t) && RelyProducer(c, m, t)
    requires ProdShape(c, pc) && IsDraining(pc) && ProducerOk(c, m, pc)
    ensures ProducerOk(c, t, pc)
  {
    StableRunning(c, m, t, pc.e, pc.n);
    if !pc.ProdDone? {
      assert Drained(c, t, pc.sent, pc.slot);
    }
  }

  lemma StableEntering(c: Cfg, m: Mem, t: Mem, pc: ProdPc)
    requires Shape(c, m) && Shape(c, t) && Chain(c, t) && RelyProducer(c, m, t)
    requires ProdShape(c, pc) && !IsWriting(pc) && !IsDraining(pc) && ProducerOk(c, m, pc)
    ensures ProducerOk(c, t, pc)
  {
    if InLoop(pc) {
      StableRunning(c, m, t, pc.e, pc.n);
    }
  }

  lemma StableOpening(c: Cfg, m: Mem, t: Mem, r: nat, slot: nat, last: seq<nat>)
    requires Shape(c, m) && Chain(c, m) && Shape(c, t) && Chain(c, t) && r < c.ranks && |last| == c.slots
    requires ApiOk(c, m, r, Opening(slot, last)) && RelyApi(c, m, t, r)
    ensures ApiOk(c, t, r, Opening(slot, last))
  {
    assert InPair(m.h, m.active, m.joinEpoch[r]);
  }

  lemma StableApi(c: Cfg, m: Mem, t: Mem, r: nat, pc: Api)
    requires Shape(c, m) && Chain(c, m) && Shape(c, t) && Chain(c, t) && Counters(c, t) && r < c.ranks
    requires ApiOk(c, m, r, pc) && RelyApi(c, m, t, r)
    ensures ApiOk(c, t, r, pc)
  {
    hide Chain, Counters;
    match pc {
      case InJoin(join) => StableJoin(c, m, t, r, join);
      case InProducer(prod) =>
        if IsWriting(prod) {
          StableWriting(c, m, t, prod);
        } else if IsDraining(prod) {
          StableDraining(c, m, t, prod);
        } else {
          StableEntering(c, m, t, prod);
        }
      case InWait(wait) => StableWait(c, m, t, r, wait);
      case Opening(slot, last) => StableOpening(c, m, t, r, slot, last);
      case _ =>
    }
  }

  lemma StableCons(c: Cfg, m: Mem, t: Mem, r: nat, k: Cons)
    requires Shared(c, m) && Shared(c, t) && r < c.ranks && ConsOk(c, m, r, k) && RelyCons(c, m, t, r)
    ensures ConsOk(c, t, r, k)
  {
    hide Cells, Copies, Publications, Results;
  }

  // ----- facts that do not read what a step writes

  lemma SameOthers(c: Cfg, m: Mem, api: int, cons: int)
    requires Shape(c, m)
    ensures Others(c, m, m, api, cons)
  {
  }

  lemma FrameChain(c: Cfg, m: Mem, t: Mem)
    requires Shape(c, m) && Shape(c, t) && Chain(c, m)
    requires t.active == m.active && t.producerDone == m.producerDone && t.joinEpoch == m.joinEpoch
    requires t.consumerDone == m.consumerDone && t.waitReturned == m.waitReturned
    requires t.h.prev == m.h.prev && t.h.opening == m.h.opening
    ensures Chain(c, t)
  {
  }

  lemma FrameCells(c: Cfg, m: Mem, t: Mem)
    requires Shape(c, m) && Shape(c, t) && Cells(c, m)
    requires t.active == m.active && t.layer == m.layer && t.count == m.count && t.bytes == m.bytes
    requires t.consumerDone == m.consumerDone
    requires t.h.opening == m.h.opening && t.h.id == m.h.id && t.h.count == m.h.count && t.h.layers == m.h.layers
    ensures Cells(c, t)
  {
  }

  lemma FrameCounters(c: Cfg, m: Mem, t: Mem)
    requires Shape(c, m) && Shape(c, t) && Counters(c, m)
    requires t.active == m.active && t.nextSequence == m.nextSequence && t.readySequence == m.readySequence
    requires t.ack == m.ack && t.joinEpoch == m.joinEpoch && t.consumerDone == m.consumerDone
    requires t.producerDone == m.producerDone
    requires t.h.base == m.h.base && t.h.seq0 == m.h.seq0 && t.h.count == m.h.count && t.h.acked == m.h.acked
    requires t.h.issued == m.h.issued && t.h.published == m.h.published && t.h.fetched == m.h.fetched
    requires t.h.written == m.h.written && (m.h.ran ==> t.h.ran)
    ensures Counters(c, t)
  {
  }

  lemma FrameCopies(c: Cfg, m: Mem, t: Mem)
    requires Shape(c, m) && Shape(c, t) && Copies(c, m)
    requires t.active == m.active && t.stream == m.stream && t.gpu == m.gpu
    requires t.h.done == m.h.done && t.h.issued == m.h.issued && t.h.acked == m.h.acked
    requires m.h.published <= t.h.published && t.h.start == m.h.start && t.h.produced == m.h.produced
    ensures Copies(c, t)
  {
  }

  lemma FramePublications(c: Cfg, m: Mem, t: Mem)
    requires Shape(c, m) && Shape(c, t) && Publications(c, m)
    requires t.active == m.active && t.readyEpoch == m.readyEpoch && t.readyExpert == m.readyExpert
    requires t.host == m.host
    requires t.h.acked == m.h.acked && t.h.published == m.h.published && t.h.written == m.h.written
    requires t.h.produced == m.h.produced
    ensures Publications(c, t)
  {
    forall r, x | 0 <= r < c.ranks && t.h.acked[r] <= x < t.h.published ensures InSlot(c, t, x) {
      assert InSlot(c, m, x);
    }
  }

  lemma FrameResults(c: Cfg, h: History, g: History)
    requires Results(c, h)
    requires g.results == h.results && g.produced == h.produced && g.layers == h.layers
    ensures Results(c, g)
  {
    forall i | 0 <= i < |g.results| ensures ReturnOk(c, g, g.results[i]) {
      assert ReturnOk(c, h, h.results[i]);
    }
  }

  // ----- join

  /** A step of an API thread: memory, its own facts and what everybody else relies on. */
  ghost predicate ApiStepOk(c: Cfg, m: Mem, r: nat, act: Act)
    requires Shape(c, m) && r < c.ranks
  {
    Shared(c, act.m) && ApiOk(c, act.m, r, act.pc) && Others(c, m, act.m, r, -1)
  }

  lemma LocalOk(c: Cfg, m: Mem, r: nat, act: Act)
    requires Shared(c, m) && r < c.ranks && act.m == m && ApiOk(c, m, r, act.pc)
    ensures ApiStepOk(c, m, r, act)
  {
    SameOthers(c, m, r, -1);
  }

  lemma StartRewriting(c: Cfg, m: Mem)
    requires Shared(c, m) && Quiet(m) && forall j | 0 <= j < c.ranks :: m.waitReturned[j] >= m.active
    ensures var t := m.(h := m.h.(opening := true));
      Shared(c, t) && Others(c, m, t, 0, -1)
  {
    hide Counters, Copies, Publications, Results;
    var t := m.(h := m.h.(opening := true));
    FrameCounters(c, m, t);
    FrameCopies(c, m, t);
    FramePublications(c, m, t);
    FrameResults(c, m.h, t.h);
  }

  lemma RewriteCells(c: Cfg, m: Mem, t: Mem)
    requires Shared(c, m) && m.h.opening && |t.bytes| == c.ranks
    requires t == m.(layer := t.layer, count := t.count, bytes := t.bytes)
    ensures Shared(c, t) && Others(c, m, t, 0, -1)
  {
  }

  lemma OpenCounters(c: Cfg, m: Mem, e: nat)
    requires Shape(c, m) && Chain(c, m) && Counters(c, m) && m.h.opening && m.active < e
    ensures Shape(c, OpenLayer(c, m, e)) && Chain(c, OpenLayer(c, m, e)) && Counters(c, OpenLayer(c, m, e))
  {
    var t := OpenLayer(c, m, e);
    assert m.waitReturned[0] == m.active;
    forall slot | 0 <= slot < c.slots ensures t.h.seq0[slot] <= t.h.base {
      SeqBound(c, m.h.base, m.h.seq0, m.h.published, slot);
    }
    forall r | 0 <= r < c.ranks ensures m.ack[r] == m.readySequence {
      assert m.waitReturned[r] == m.active;
      assert m.h.acked[r] == m.h.count == m.h.published;
    }
  }

  lemma OpenCopies(c: Cfg, m: Mem, e: nat)
    requires Shape(c, m) && Chain(c, m) && Counters(c, m) && Copies(c, m) && m.h.opening
    ensures Copies(c, OpenLayer(c, m, e))
  {
    var t := OpenLayer(c, m, e);
    forall r | 0 <= r < c.ranks ensures t.stream[r] == Ops(c, 0, 0, 0) {
      assert m.waitReturned[r] == m.active;
      assert m.h.issued[r] == 0;
    }
  }

  lemma OpenHistory(c: Cfg, m: Mem, e: nat)
    requires Shape(c, m) && Cells(c, m) && Publications(c, m) && Results(c, m.h)
    requires m.active < e && 0 < m.count <= c.experts
    ensures Publications(c, OpenLayer(c, m, e)) && Results(c, OpenLayer(c, m, e).h)
  {
    var t := OpenLayer(c, m, e);
    forall i | 0 <= i < |t.h.results| ensures ReturnOk(c, t.h, t.h.results[i]) {
      assert ReturnOk(c, m.h, m.h.results[i]);
    }
  }

  lemma OpenShared(c: Cfg, m: Mem, e: nat)
    requires Shared(c, m) && m.h.opening && m.active < e && 0 < m.count <= c.experts
    ensures Shared(c, OpenLayer(c, m, e))
  {
    OpenCounters(c, m, e);
    OpenCopies(c, m, e);
    OpenHistory(c, m, e);
    assert Cells(c, OpenLayer(c, m, e));
  }

  lemma OpenOthers(c: Cfg, m: Mem, e: nat)
    requires Shared(c, m) && m.h.opening && m.active < e
    ensures Others(c, m, OpenLayer(c, m, e), 0, -1)
  {
  }

  lemma StoreJoinChain(c: Cfg, m: Mem, r: nat, e: nat)
    requires Shape(c, m) && Chain(c, m) && r < c.ranks && JoinOk(c, m, r, JoinStore(e))
    ensures var t := m.(joinEpoch := m.joinEpoch[r := e]); Shape(c, t) && Chain(c, t)
  {
  }

  lemma StoreJoinCounters(c: Cfg, m: Mem, r: nat, e: nat)
    requires Shape(c, m) && Chain(c, m) && Counters(c, m) && r < c.ranks && JoinOk(c, m, r, JoinStore(e))
    ensures var t := m.(joinEpoch := m.joinEpoch[r := e]); Shape(c, t) && Counters(c, t)
  {
  }

  lemma StoreJoinShared(c: Cfg, m: Mem, r: nat, e: nat)
    requires Shared(c, m) && r < c.ranks && JoinOk(c, m, r, JoinStore(e))
    ensures Shared(c, m.(joinEpoch := m.joinEpoch[r := e]))
  {
    hide Chain, Counters, Copies, Publications, Results, Cells;
    var t := m.(joinEpoch := m.joinEpoch[r := e]);
    StoreJoinChain(c, m, r, e);
    StoreJoinCounters(c, m, r, e);
    FrameCells(c, m, t);
    FrameCopies(c, m, t);
    FramePublications(c, m, t);
  }

  lemma StoreJoin(c: Cfg, m: Mem, r: nat, e: nat)
    requires Shape(c, m) && Chain(c, m) && Counters(c, m) && r < c.ranks && JoinOk(c, m, r, JoinStore(e))
    ensures var t := m.(joinEpoch := m.joinEpoch[r := e]);
      ApiOk(c, t, r, Ready) && Others(c, m, t, r, -1)
  {
    hide Counters;
  }

  predicate WritesInJoin(pc: JoinPc) {
    pc.JoinLayer? || pc.JoinCount? || pc.JoinBytes? || pc.JoinPublish? || pc.JoinStore?
  }

  /** What a step of join that stores nothing leaves: memory as it was, or marked as being rewritten. */
  ghost predicate JoinLocalOk(c: Cfg, m: Mem, r: nat, act: Act)
    requires Shape(c, m) && r < c.ranks
  {
    && (act.m == m || (r == 0 && Quiet(m) && act.m == m.(h := m.h.(opening := true))
                       && forall j | 0 <= j < c.ranks :: m.waitReturned[j] >= m.active))
    && ApiOk(c, act.m, r, act.pc)
  }

  lemma JoinEnter(c: Cfg, m: Mem, poisoned: bool, r: nat, pc: JoinPc, timeout: bool)
    requires Shape(c, m) && Chain(c, m) && r < c.ranks && (pc.JoinEntry? || pc.JoinBarrier?) && JoinOk(c, m, r, pc)
    ensures JoinLocalOk(c, m, r, JoinAct(c, m, poisoned, r, pc, timeout))
  {
    hide Cells, Follows;
  }

  lemma JoinFollower(c: Cfg, m: Mem, poisoned: bool, r: nat, pc: JoinPc, timeout: bool)
    requires Shape(c, m) && Chain(c, m) && r < c.ranks && JoinOk(c, m, r, pc)
    requires pc.JoinFollow? || pc.JoinCheckLayer? || pc.JoinCheckCount?
    ensures JoinLocalOk(c, m, r, JoinAct(c, m, poisoned, r, pc, timeout))
  {
  }

  lemma JoinNoWrite(c: Cfg, m: Mem, poisoned: bool, r: nat, pc: JoinPc, timeout: bool)
    requires Shared(c, m) && r < c.ranks && JoinOk(c, m, r, pc) && !WritesInJoin(pc)
    ensures ApiStepOk(c, m, r, JoinAct(c, m, poisoned, r, pc, timeout))
  {
    hide Chain, Cells, Counters, Copies, Publications, Results, Others;
    var act := JoinAct(c, m, poisoned, r, pc, timeout);
    if pc.JoinEntry? || pc.JoinBarrier? {
      JoinEnter(c, m, poisoned, r, pc, timeout);
    } else {
      JoinFollower(c, m, poisoned, r, pc, timeout);
    }
    if act.m == m {
      LocalOk(c, m, r, act);
    } else {
      StartRewriting(c, m);
    }
  }

  lemma JoinRewrite(c: Cfg, m: Mem, poisoned: bool, r: nat, pc: JoinPc, timeout: bool)
    requires Shared(c, m) && r < c.ranks && JoinOk(c, m, r, pc) && (pc.JoinLayer? || pc.JoinCount? || pc.JoinBytes?)
    ensures ApiStepOk(c, m, r, JoinAct(c, m, poisoned, r, pc, timeout))
  {
    hide Chain, Cells, Counters, Copies, Publications, Results, Others;
    RewriteCells(c, m, JoinAct(c, m, poisoned, r, pc, timeout).m);
  }

  lemma JoinStep(c: Cfg, m: Mem, poisoned: bool, r: nat, pc: JoinPc, timeout: bool)
    requires Shared(c, m) && r < c.ranks && JoinOk(c, m, r, pc)
    ensures ApiStepOk(c, m, r, JoinAct(c, m, poisoned, r, pc, timeout))
  {
    hide Cells, Counters, Copies, Publications, Results;
    if !WritesInJoin(pc) {
      JoinNoWrite(c, m, poisoned, r, pc, timeout);
    } else if pc.JoinPublish? {
      OpenShared(c, m, pc.e);
      OpenOthers(c, m, pc.e);
    } else if pc.JoinStore? {
      StoreJoinShared(c, m, r, pc.e);
      StoreJoin(c, m, r, pc.e);
    } else {
      JoinRewrite(c, m, poisoned, r, pc, timeout);
    }
  }

  // ----- wait and close

  lemma StoreWaitResults(c: Cfg, m: Mem, r: nat, pc: WaitPc)
    requires Shared(c, m) && r < c.ranks && WaitOk(c, m, r, pc) && pc.WaitStore?
    ensures Results(c, WaitAct(c, m, false, r, pc, false).m.h)
  {
    var t := WaitAct(c, m, false, r, pc, false).m;
    var entry := t.h.results[|m.h.results|];
    if entry.first {
      assert m.joinEpoch[r] == m.active == m.consumerDone[r];
      assert m.h.acked[r] == m.h.count && m.h.done[r] == 0;
    }
    assert ReturnOk(c, t.h, entry);
    forall i | 0 <= i < |m.h.results| ensures ReturnOk(c, t.h, t.h.results[i]) {
      assert ReturnOk(c, m.h, m.h.results[i]);
    }
  }

  lemma StoreWaitChain(c: Cfg, m: Mem, r: nat, pc: WaitPc)
    requires Shape(c, m) && Chain(c, m) && r < c.ranks && WaitOk(c, m, r, pc) && pc.WaitStore?
    ensures var act := WaitAct(c, m, false, r, pc, false);
      Shape(c, act.m) && Chain(c, act.m) && ApiOk(c, act.m, r, act.pc) && Others(c, m, act.m, r, -1)
  {
    hide HostShape, TableShape, OpShape;
  }

  lemma StoreWait(c: Cfg, m: Mem, r: nat, pc: WaitPc)
    requires Shared(c, m) && r < c.ranks && WaitOk(c, m, r, pc) && pc.WaitStore?
    ensures ApiStepOk(c, m, r, WaitAct(c, m, false, r, pc, false))
  {
    hide Chain, Cells, Counters, Copies, Publications, Results, Others;
    var t := WaitAct(c, m, false, r, pc, false).m;
    StoreWaitChain(c, m, r, pc);
    StoreWaitResults(c, m, r, pc);
    FrameCells(c, m, t);
    FrameCounters(c, m, t);
    FrameCopies(c, m, t);
    FramePublications(c, m, t);
  }

  lemma WaitLocal(c: Cfg, m: Mem, poisoned: bool, r: nat, pc: WaitPc, timeout: bool)
    requires Shape(c, m) && Chain(c, m) && Cells(c, m) && r < c.ranks && !pc.WaitStore?
    requires WaitOk(c, m, r, pc)
    ensures var act := WaitAct(c, m, poisoned, r, pc, timeout);
      act.m == m && ApiOk(c, m, r, act.pc)
  {
  }

  lemma WaitStep(c: Cfg, m: Mem, poisoned: bool, r: nat, pc: WaitPc, timeout: bool)
    requires Shared(c, m) && r < c.ranks && WaitOk(c, m, r, pc)
    ensures ApiStepOk(c, m, r, WaitAct(c, m, poisoned, r, pc, timeout))
  {
    hide Chain, Cells, Counters, Copies, Publications, Results, Others;
    if pc.WaitStore? {
      StoreWait(c, m, r, pc);
    } else {
      WaitLocal(c, m, poisoned, r, pc, timeout);
      LocalOk(c, m, r, WaitAct(c, m, poisoned, r, pc, timeout));
    }
  }

  lemma SetStopping(c: Cfg, m: Mem, r: nat)
    requires Shared(c, m) && r < c.ranks
    ensures var t := m.(stopping := m.stopping[r := true]);
      Shared(c, t) && Others(c, m, t, r, -1)
  {
    hide Chain, Cells, Counters, Copies, Publications, Results;
    var t := m.(stopping := m.stopping[r := true]);
    FrameChain(c, m, t);
    FrameCells(c, m, t);
    FrameCounters(c, m, t);
    FrameCopies(c, m, t);
    FramePublications(c, m, t);
  }

  lemma CloseStep(c: Cfg, m: Mem, poisoned: bool, r: nat, pc: ClosePc)
    requires Shared(c, m) && r < c.ranks && ApiOk(c, m, r, InClose(pc))
    ensures ApiStepOk(c, m, r, CloseAct(c, m, poisoned, r, pc))
  {
    hide Chain, Cells, Counters, Copies, Publications, Results, Others;
    if pc.CloseStop? {
      SetStopping(c, m, r);
    } else {
      LocalOk(c, m, r, CloseAct(c, m, poisoned, r, pc));
    }
  }

  // ----- run_producer

  lemma ProdChecks(c: Cfg, m: Mem, poisoned: bool, pc: ProdPc, timeout: bool)
    requires Shape(c, m) && Cells(c, m) && ProdShape(c, pc) && ProducerOk(c, m, pc)
    requires pc.ProdActive? || pc.ProdLayer? || pc.ProdCount?
    ensures var act := ProducerAct(c, m, poisoned, pc, timeout);
      act.m == m && ApiOk(c, m, 0, act.pc)
  {
  }

  lemma ProdAwaitJoins(c: Cfg, m: Mem, poisoned: bool, pc: ProdPc, timeout: bool)
    requires Shape(c, m) && m.h.published <= m.h.written && ProdShape(c, pc) && ProducerOk(c, m, pc) && pc.ProdBarrier?
    ensures var act := ProducerAct(c, m, poisoned, pc, timeout);
      act.m == m && ApiOk(c, m, 0, act.pc)
  {
  }

  /** An acknowledgement of expert x - slots on its slot puts the rank past that expert. */
  lemma AckMeansPast(c: Cfg, m: Mem, r: nat, x: nat)
    requires Shape(c, m) && Counters(c, m) && r < c.ranks && c.slots <= x
    requires m.ack[r][c.SlotOf(x)] >= SeqAt(c, m.h.base, Zeros(c.slots), x)[c.SlotOf(x)]
    ensures x < m.h.acked[r] + c.slots
  {
    var y := x - c.slots;
    ModShift(x, c.slots);
    SeqFresh(c, m.h.base, Zeros(c.slots), y, x);
    SeqBound(c, m.h.base, m.h.seq0, m.h.acked[r], c.SlotOf(x));
  }

  lemma NothingSent(c: Cfg, base: nat, x: nat)
    requires c.slots <= x
    ensures SeqAt(c, base, Zeros(c.slots), x)[c.SlotOf(x)] != 0
  {
    var y := x - c.slots;
    ModShift(x, c.slots);
    SeqFresh(c, base, Zeros(c.slots), y, x);
  }

  lemma ProdChoose(c: Cfg, m: Mem, poisoned: bool, pc: ProdPc, timeout: bool)
    requires Shape(c, m) && Counters(c, m) && ProdShape(c, pc) && ProducerOk(c, m, pc) && pc.ProdLoop?
    ensures var act := ProducerAct(c, m, poisoned, pc, timeout);
      act.m == m && ApiOk(c, m, 0, act.pc)
  {
    if c.slots <= pc.x {
      NothingSent(c, m.h.base, pc.x);
    } else {
      assert SlotFree(c, m, pc.x);
    }
  }

  lemma ProdAwaitAcks(c: Cfg, m: Mem, poisoned: bool, pc: ProdPc, timeout: bool)
    requires Shape(c, m) && Counters(c, m) && ProdShape(c, pc) && ProducerOk(c, m, pc) && pc.ProdAck?
    ensures var act := ProducerAct(c, m, poisoned, pc, timeout);
      act.m == m && ApiOk(c, m, 0, act.pc)
  {
    hide SeqAt;
    if pc.poll.Confirm? {
      forall j | 0 <= j < c.ranks ensures pc.x < m.h.acked[j] + c.slots {
        if c.slots <= pc.x {
          AckMeansPast(c, m, j, pc.x);
        }
      }
    }
  }

  lemma AllAcked(c: Cfg, m: Mem, e: nat, n: nat, sent: seq<nat>)
    requires Shape(c, m) && Cells(c, m) && Counters(c, m)
    requires |sent| == c.slots && AtExpert(c, m, e, n, n, sent) && Drained(c, m, sent, c.slots)
    ensures forall j | 0 <= j < c.ranks :: m.h.acked[j] == n
  {
    var slot := c.SlotOf(n - 1);
    SeqFresh(c, m.h.base, Zeros(c.slots), n - 1, n);
    forall j | 0 <= j < c.ranks ensures m.h.acked[j] == n {
      assert m.ack[j][slot] >= sent[slot];
      SeqBound(c, m.h.base, m.h.seq0, m.h.acked[j], slot);
    }
  }

  lemma ProdNextSlot(c: Cfg, m: Mem, poisoned: bool, pc: ProdPc, timeout: bool)
    requires Shape(c, m) && Cells(c, m) && Counters(c, m) && ProdShape(c, pc) && ProducerOk(c, m, pc)
    requires pc.ProdNextDrain?
    ensures var act := ProducerAct(c, m, poisoned, pc, timeout);
      act.m == m && ApiOk(c, m, 0, act.pc)
  {
    hide SeqAt;
    if pc.slot >= c.slots {
      AllAcked(c, m, pc.e, pc.n, pc.sent);
    }
  }

  lemma ProdDrainScans(c: Cfg, m: Mem, poisoned: bool, pc: ProdPc, timeout: bool)
    requires Shape(c, m) && ProdShape(c, pc) && ProducerOk(c, m, pc) && pc.ProdDrain?
    requires pc.poll.Scan?
    ensures var act := ProducerAct(c, m, poisoned, pc, timeout);
      act.m == m && ApiOk(c, m, 0, act.pc)
  {
  }

  lemma ProdDrainChecks(c: Cfg, m: Mem, poisoned: bool, pc: ProdPc, timeout: bool)
    requires Shape(c, m) && ProdShape(c, pc) && ProducerOk(c, m, pc) && pc.ProdDrain?
    requires !pc.poll.Scan?
    ensures var act := ProducerAct(c, m, poisoned, pc, timeout);
      act.m == m && ApiOk(c, m, 0, act.pc)
  {
  }

  lemma ProdDrainSlot(c: Cfg, m: Mem, poisoned: bool, pc: ProdPc, timeout: bool)
    requires Shape(c, m) && ProdShape(c, pc) && ProducerOk(c, m, pc) && pc.ProdDrain?
    ensures var act := ProducerAct(c, m, poisoned, pc, timeout);
      act.m == m && ApiOk(c, m, 0, act.pc)
  {
    if pc.poll.Scan? {
      ProdDrainScans(c, m, poisoned, pc, timeout);
    } else {
      ProdDrainChecks(c, m, poisoned, pc, timeout);
    }
  }

  /** What run_producer writes disturbs nobody else. */
  lemma ProducerOthers(c: Cfg, m: Mem, t: Mem)
    requires Shape(c, m) && Shape(c, t) && m.producerDone <= t.producerDone && m.h.published <= t.h.published
    requires t == m.(nextSequence := t.nextSequence, producerDone := t.producerDone, host := t.host,
                     readySequence := t.readySequence, readyEpoch := t.readyEpoch, readyExpert := t.readyExpert,
                     h := m.h.(published := t.h.published, fetched := t.h.fetched, written := t.h.written,
                               ran := t.h.ran, produced := t.h.produced))
    ensures Others(c, m, t, 0, -1)
  {
  }

  /** The program points after the producer's stores. */
  lemma AfterRan(c: Cfg, m: Mem, pc: ProdPc)
    requires Shape(c, m) && Counters(c, m) && ProdShape(c, pc) && ProducerOk(c, m, pc) && pc.ProdJoin?
    ensures var act := ProducerAct(c, m, false, pc, false);
      Shape(c, act.m) && ApiOk(c, act.m, 0, act.pc)
  {
  }

  lemma AfterFetch(c: Cfg, m: Mem, pc: ProdPc)
    requires Shape(c, m) && Counters(c, m) && ProdShape(c, pc) && ProducerOk(c, m, pc) && pc.ProdFetch?
    ensures var act := ProducerAct(c, m, false, pc, false);
      Shape(c, act.m) && ApiOk(c, act.m, 0, act.pc)
  {
  }

  lemma AfterReady(c: Cfg, m: Mem, pc: ProdPc)
    requires Shape(c, m) && ProdShape(c, pc) && ProducerOk(c, m, pc) && (pc.ProdEpoch? || pc.ProdExpert?)
    ensures var act := ProducerAct(c, m, false, pc, false);
      Shape(c, act.m) && ApiOk(c, act.m, 0, act.pc)
  {
  }

  lemma AfterPublish(c: Cfg, m: Mem, pc: ProdPc)
    requires Shape(c, m) && Counters(c, m) && ProdShape(c, pc) && ProducerOk(c, m, pc) && pc.ProdSequence?
    ensures var act := ProducerAct(c, m, false, pc, false);
      Shape(c, act.m) && ApiOk(c, act.m, 0, act.pc)
  {
  }

  lemma MarkRan(c: Cfg, m: Mem, pc: ProdPc)
    requires Shared(c, m) && ProdShape(c, pc) && ProducerOk(c, m, pc) && pc.ProdJoin?
    ensures ApiStepOk(c, m, 0, ProducerAct(c, m, false, pc, false))
  {
    hide Chain, Cells, Counters, Copies, Publications, Results, Others;
    var t := ProducerAct(c, m, false, pc, false).m;
    AfterRan(c, m, pc);
    ProducerOthers(c, m, t);
    FrameChain(c, m, t);
    FrameCells(c, m, t);
    FrameCounters(c, m, t);
    FrameCopies(c, m, t);
    FramePublications(c, m, t);
    FrameResults(c, m.h, t.h);
  }

  /** Both records hold the same blocks for (epoch, expert). */
  predicate Made2(p: map<(nat, nat), seq<seq<Block>>>, q: map<(nat, nat), seq<seq<Block>>>, e: nat, x: nat) {
    (e, x) in p && (e, x) in q && p[(e, x)] == q[(e, x)]
  }

  /** Recording what the writer left for an expert not yet recorded does not change what was copied before. */
  lemma {:induction false} CopyLoopFrame(kinds: nat, t: Table, p: map<(nat, nat), seq<seq<Block>>>,
                                         q: map<(nat, nat), seq<seq<Block>>>, e: nat, r: nat, x: nat, k: nat)
    requires forall y | 0 <= y < x :: Made2(p, q, e, y)
    requires k > 0 ==> Made2(p, q, e, x)
    ensures CopyLoop(kinds, t, p, e, r, x, k) == CopyLoop(kinds, t, q, e, r, x, k)
    decreases x, k
  {
    if k > 0 {
      CopyLoopFrame(kinds, t, p, q, e, r, x, k - 1);
    } else if x > 0 {
      CopyLoopFrame(kinds, t, p, q, e, r, x - 1, kinds);
    }
  }

  lemma WriterCopies(c: Cfg, m: Mem, pc: ProdPc)
    requires Shape(c, m) && Counters(c, m) && Copies(c, m) && Publications(c, m)
    requires ProdShape(c, pc) && ProducerOk(c, m, pc) && pc.ProdWrite?
    ensures Copies(c, ProducerAct(c, m, false, pc, false).m)
  {
    var t := ProducerAct(c, m, false, pc, false).m;
    forall r | 0 <= r < c.ranks
      ensures t.gpu[r] == CopyLoop(c.Kinds(), t.h.start[r], t.h.produced, t.active, r, t.h.acked[r], t.h.done[r])
    {
      CopyLoopFrame(c.Kinds(), m.h.start[r], m.h.produced, t.h.produced, m.active, r, m.h.acked[r], m.h.done[r]);
    }
  }

  lemma WriterResults(c: Cfg, m: Mem, pc: ProdPc)
    requires Shape(c, m) && Publications(c, m) && Results(c, m.h)
    requires ProdShape(c, pc) && ProducerOk(c, m, pc) && pc.ProdWrite?
    ensures Results(c, ProducerAct(c, m, false, pc, false).m.h)
  {
    var h, g := m.h, ProducerAct(c, m, false, pc, false).m.h;
    forall i | 0 <= i < |g.results| ensures ReturnOk(c, g, g.results[i]) {
      var entry := h.results[i];
      assert ReturnOk(c, h, entry);
      if entry.first {
        CopyLoopFrame(c.Kinds(), entry.before, h.produced, g.produced, entry.epoch, entry.rank, entry.count, 0);
      }
    }
  }

  lemma WriterPublications(c: Cfg, m: Mem, pc: ProdPc)
    requires Shape(c, m) && Counters(c, m) && Publications(c, m)
    requires ProdShape(c, pc) && ProducerOk(c, m, pc) && pc.ProdWrite?
    ensures var t := ProducerAct(c, m, false, pc, false).m;
      Shape(c, t) && Counters(c, t) && Publications(c, t)
  {
    hide SeqAt, SlotFree;
    var t := ProducerAct(c, m, false, pc, false).m;
    forall r, x | 0 <= r < c.ranks && t.h.acked[r] <= x < t.h.published ensures InSlot(c, t, x) {
      assert InSlot(c, m, x);
    }
  }

  lemma WriterReturns(c: Cfg, m: Mem, pc: ProdPc)
    requires Shared(c, m) && ProdShape(c, pc) && ProducerOk(c, m, pc) && pc.ProdWrite?
    ensures ApiStepOk(c, m, 0, ProducerAct(c, m, false, pc, false))
  {
    hide Chain, Cells, Copies, Publications, Results, Others;
    var act := ProducerAct(c, m, false, pc, false);
    WriterPublications(c, m, pc);
    WriterCopies(c, m, pc);
    WriterResults(c, m, pc);
    ProducerOthers(c, m, act.m);
    FrameChain(c, m, act.m);
    FrameCells(c, m, act.m);
  }

  lemma Fetch(c: Cfg, m: Mem, pc: ProdPc)
    requires Shared(c, m) && ProdShape(c, pc) && ProducerOk(c, m, pc) && pc.ProdFetch?
    ensures ApiStepOk(c, m, 0, ProducerAct(c, m, false, pc, false))
  {
    hide Chain, Cells, Copies, Publications, Results, Others;
    var t := ProducerAct(c, m, false, pc, false).m;
    AfterFetch(c, m, pc);
    ProducerOthers(c, m, t);
    FrameChain(c, m, t);
    FrameCells(c, m, t);
    FrameCopies(c, m, t);
    FramePublications(c, m, t);
    FrameResults(c, m.h, t.h);
    assert Counters(c, t);
  }

  /** A slot the producer may write holds no expert any rank still has to copy. */
  lemma FreeSlotUnused(c: Cfg, m: Mem, x: nat, r: nat, y: nat)
    requires Shape(c, m) && SlotFree(c, m, x) && r < c.ranks && m.h.acked[r] <= y < x
    ensures c.SlotOf(y) != c.SlotOf(x)
  {
    ModDistinct(y, x, c.slots);
  }

  lemma StoreReadyPublications(c: Cfg, m: Mem, t: Mem, x: nat)
    requires Shape(c, m) && Shape(c, t) && Publications(c, m) && SlotFree(c, m, x) && m.h.published == x
    requires forall slot | 0 <= slot < c.slots && slot != c.SlotOf(x) ::
      t.readyEpoch[slot] == m.readyEpoch[slot] && t.readyExpert[slot] == m.readyExpert[slot]
      && t.host[slot] == m.host[slot]
    requires t.h == m.h && t.active == m.active
    ensures Publications(c, t)
  {
    forall r, y | 0 <= r < c.ranks && t.h.acked[r] <= y < t.h.published ensures InSlot(c, t, y) {
      assert InSlot(c, m, y);
      FreeSlotUnused(c, m, x, r, y);
    }
  }

  lemma StoreReady(c: Cfg, m: Mem, pc: ProdPc)
    requires Shared(c, m) && ProdShape(c, pc) && ProducerOk(c, m, pc) && (pc.ProdEpoch? || pc.ProdExpert?)
    ensures ApiStepOk(c, m, 0, ProducerAct(c, m, false, pc, false))
  {
    hide Chain, Cells, Counters, Copies, Publications, Results, Others;
    var t := ProducerAct(c, m, false, pc, false).m;
    StoreReadyPublications(c, m, t, pc.x);
    AfterReady(c, m, pc);
    ProducerOthers(c, m, t);
    FrameChain(c, m, t);
    FrameCells(c, m, t);
    FrameCounters(c, m, t);
    FrameCopies(c, m, t);
  }

  lemma PublishCounters(c: Cfg, m: Mem, pc: ProdPc)
    requires Shape(c, m) && Counters(c, m) && ProdShape(c, pc) && ProducerOk(c, m, pc) && pc.ProdSequence?
    ensures var t := ProducerAct(c, m, false, pc, false).m;
      Shape(c, t) && Counters(c, t)
  {
  }

  lemma PublishPublications(c: Cfg, m: Mem, pc: ProdPc)
    requires Shape(c, m) && Publications(c, m) && ProdShape(c, pc) && ProducerOk(c, m, pc) && pc.ProdSequence?
    ensures var t := ProducerAct(c, m, false, pc, false).m;
      Shape(c, t) && Publications(c, t)
  {
    var t := ProducerAct(c, m, false, pc, false).m;
    forall r, y | 0 <= r < c.ranks && t.h.acked[r] <= y < t.h.published ensures InSlot(c, t, y) {
      if y < pc.x {
        assert InSlot(c, m, y);
      }
    }
  }

  lemma PublishExpert(c: Cfg, m: Mem, pc: ProdPc)
    requires Shared(c, m) && ProdShape(c, pc) && ProducerOk(c, m, pc) && pc.ProdSequence?
    ensures ApiStepOk(c, m, 0, ProducerAct(c, m, false, pc, false))
  {
    hide Chain, Cells, Counters, Copies, Publications, Results, Others;
    var t := ProducerAct(c, m, false, pc, false).m;
    PublishCounters(c, m, pc);
    PublishPublications(c, m, pc);
    AfterPublish(c, m, pc);
    ProducerOthers(c, m, t);
    FrameChain(c, m, t);
    FrameCells(c, m, t);
    FrameCopies(c, m, t);
    FrameResults(c, m.h, t.h);
  }

  lemma StoreProducerDone(c: Cfg, m: Mem, pc: ProdPc)
    requires Shared(c, m) && ProdShape(c, pc) && ProducerOk(c, m, pc) && pc.ProdDone?
    ensures ApiStepOk(c, m, 0, ProducerAct(c, m, false, pc, false))
  {
    hide Cells, Copies, Publications, Results, Others;
    var t := ProducerAct(c, m, false, pc, false).m;
    ProducerOthers(c, m, t);
    FrameCells(c, m, t);
    FrameCopies(c, m, t);
    FramePublications(c, m, t);
    assert Chain(c, t);
    assert Counters(c, t);
  }

  predicate WritesInProducer(pc: ProdPc) {
    pc.ProdJoin? || pc.ProdWrite? || pc.ProdFetch? || pc.ProdEpoch? || pc.ProdExpert? || pc.ProdSequence?
    || pc.ProdDone?
  }

  lemma ProducerLocal(c: Cfg, m: Mem, poisoned: bool, pc: ProdPc, timeout: bool)
    requires Shape(c, m) && Cells(c, m) && Counters(c, m) && ProdShape(c, pc) && ProducerOk(c, m, pc)
    requires !WritesInProducer(pc)
    ensures var act := ProducerAct(c, m, poisoned, pc, timeout);
      act.m == m && ApiOk(c, m, 0, act.pc)
  {
    hide Chain, Cells;
    if pc.ProdLoop? {
      ProdChoose(c, m, poisoned, pc, timeout);
    } else if pc.ProdAck? {
      ProdAwaitAcks(c, m, poisoned, pc, timeout);
    } else if pc.ProdNextDrain? {
      ProdNextSlot(c, m, poisoned, pc, timeout);
    } else if pc.ProdDrain? {
      ProdDrainSlot(c, m, poisoned, pc, timeout);
    } else if pc.ProdBarrier? {
      ProdAwaitJoins(c, m, poisoned, pc, timeout);
    } else {
      ProdChecks(c, m, poisoned, pc, timeout);
    }
  }

  lemma ProducerWrites(c: Cfg, m: Mem, pc: ProdPc)
    requires Shared(c, m) && ProdShape(c, pc) && ProducerOk(c, m, pc) && WritesInProducer(pc)
    ensures ApiStepOk(c, m, 0, ProducerAct(c, m, false, pc, false))
  {
    hide Shared, ApiStepOk, ProducerOk, ProducerAct;
    match pc {
      case ProdJoin(_, _, _) => MarkRan(c, m, pc);
      case ProdWrite(_, _, _, _) => WriterReturns(c, m, pc);
      case ProdFetch(_, _, _, _) => Fetch(c, m, pc);
      case ProdEpoch(_, _, _, _, _) => StoreReady(c, m, pc);
      case ProdExpert(_, _, _, _, _) => StoreReady(c, m, pc);
      case ProdSequence(_, _, _, _, _) => PublishExpert(c, m, pc);
      case ProdDone(_, _) => StoreProducerDone(c, m, pc);
    }
  }

  lemma ProducerStep(c: Cfg, m: Mem, poisoned: bool, pc: ProdPc, timeout: bool)
    requires Shared(c, m) && ProdShape(c, pc) && ProducerOk(c, m, pc)
    ensures ApiStepOk(c, m, 0, ProducerAct(c, m, poisoned, pc, timeout))
  {
    hide Chain, Cells, Counters, Copies, Publications, Results, Others;
    if WritesInProducer(pc) {
      ProducerWrites(c, m, pc);
      assert ProducerAct(c, m, poisoned, pc, timeout) == ProducerAct(c, m, false, pc, false);
    } else {
      ProducerLocal(c, m, poisoned, pc, timeout);
      LocalOk(c, m, 0, ProducerAct(c, m, poisoned, pc, timeout));
    }
  }

  lemma ApiActOk(c: Cfg, m: Mem, poisoned: bool, r: nat, pc: Api, timeout: bool)
    requires Shared(c, m) && r < c.ranks && ApiOk(c, m, r, pc) && !Resting(pc)
    ensures ApiStepOk(c, m, r, ApiAct(c, m, poisoned, r, pc, timeout))
  {
    match pc {
      case InJoin(join) => JoinStep(c, m, poisoned, r, join, timeout);
      case InProducer(prod) => ProducerStep(c, m, poisoned, prod, timeout);
      case InWait(wait) => WaitStep(c, m, poisoned, r, wait, timeout);
      case InClose(close) => CloseStep(c, m, poisoned, r, close);
    }
  }

  /** The writer callback stores into a buffer of the slot it was given. */
  lemma WriterStores(c: Cfg, m: Mem, pc: ProdPc, rank: nat, kind: nat, block: Block)
    requires Shared(c, m) && ProdShape(c, pc) && ProducerOk(c, m, pc) && pc.ProdWrite?
    requires rank < c.ranks && kind < c.Kinds()
    ensures var slot := c.SlotOf(pc.x);
      var t := m.(host := m.host[slot := StoreBuffer(m.host[slot], rank, kind, block)]);
      Shared(c, t) && ProducerOk(c, t, pc) && Others(c, m, t, 0, -1)
  {
    hide Chain, Cells, Counters, Copies, Publications, Results, Others;
    var slot := c.SlotOf(pc.x);
    var t := m.(host := m.host[slot := StoreBuffer(m.host[slot], rank, kind, block)]);
    ProducerOthers(c, m, t);
    StoreReadyPublications(c, m, t, pc.x);
    FrameChain(c, m, t);
    FrameCells(c, m, t);
    FrameCounters(c, m, t);
    FrameCopies(c, m, t);
  }

  // ----- copy threads

  ghost predicate ConsStepOk(c: Cfg, m: Mem, r: nat, out: ConsOutcome)
    requires Shape(c, m) && r < c.ranks
  {
    Shared(c, out.m) && ConsOk(c, out.m, r, out.k) && Others(c, m, out.m, -1, r)
  }

  lemma ConsLocalOk(c: Cfg, m: Mem, r: nat, out: ConsOutcome)
    requires Shared(c, m) && r < c.ranks && out.m == m && ConsOk(c, m, r, out.k)
    ensures ConsStepOk(c, m, r, out)
  {
    SameOthers(c, m, -1, r);
  }

  lemma ConsIdleLocal(c: Cfg, m: Mem, poisoned: bool, r: nat, k: Cons, fault: Fault)
    requires Shape(c, m) && Chain(c, m) && Cells(c, m) && r < c.ranks && ConsOk(c, m, r, k)
    requires k.pc.CStart? || k.pc.CTop? || k.pc.CActive? || k.pc.CIdle? || k.pc.CJoin? || k.pc.CCount? || k.pc.CCatch?
             || k.pc.CGone?
    ensures var out := ConsAct(c, m, poisoned, r, k, fault);
      out.m == m && ConsOk(c, m, r, out.k)
  {
  }

  /** A ready sequence other than the last accepted one is that of the rank's next expert. */
  lemma NewSequence(c: Cfg, m: Mem, r: nat)
    requires Shape(c, m) && Counters(c, m) && r < c.ranks
    ensures var x := m.h.acked[r];
      var slot := c.SlotOf(x);
      if x < m.h.published
      then m.readySequence[slot] == m.h.base + x + 1 && m.readySequence[slot] != m.ack[r][slot]
      else m.readySequence[slot] == m.ack[r][slot]
  {
    var x := m.h.acked[r];
    if x < m.h.published {
      SeqFresh(c, m.h.base, m.h.seq0, x, m.h.published);
      SeqBound(c, m.h.base, m.h.seq0, x, c.SlotOf(x));
    }
  }

  lemma ConsPollLocal(c: Cfg, m: Mem, poisoned: bool, r: nat, k: Cons, fault: Fault)
    requires Shape(c, m) && Counters(c, m) && r < c.ranks && ConsOk(c, m, r, k) && k.pc.CPoll?
    ensures var out := ConsAct(c, m, poisoned, r, k, fault);
      out.m == m && ConsOk(c, m, r, out.k)
  {
    hide SeqAt;
    NewSequence(c, m, r);
  }

  lemma ConsEventLocal(c: Cfg, m: Mem, poisoned: bool, r: nat, k: Cons, fault: Fault)
    requires Shape(c, m) && r < c.ranks && ConsOk(c, m, r, k) && k.pc.CEvent?
    ensures var out := ConsAct(c, m, poisoned, r, k, fault);
      out.m == m && ConsOk(c, m, r, out.k)
  {
  }

  lemma IssueCopies(c: Cfg, m: Mem, r: nat, x: nat, kind: nat)
    requires Shape(c, m) && Copies(c, m) && r < c.ranks
    requires x == m.h.acked[r] < m.h.published && kind == m.h.issued[r] < c.Kinds() && x < c.experts
    ensures var t := m.(stream := m.stream[r := m.stream[r] + [Op(c.SlotOf(x), kind, x)]],
                        h := m.h.(issued := m.h.issued[r := kind + 1]));
      Shape(c, t) && Copies(c, t)
  {
    var t := m.(stream := m.stream[r := m.stream[r] + [Op(c.SlotOf(x), kind, x)]],
                h := m.h.(issued := m.h.issued[r := kind + 1]));
    assert t.stream[r] == Ops(c, x, m.h.done[r], kind + 1);
  }

  lemma ConsIssueShared(c: Cfg, m: Mem, r: nat, x: nat, kind: nat)
    requires Shared(c, m) && r < c.ranks
    requires x == m.h.acked[r] < m.h.published && kind == m.h.issued[r] < c.Kinds() && x < c.experts
    requires m.joinEpoch[r] == m.active != m.consumerDone[r]
    ensures var t := m.(stream := m.stream[r := m.stream[r] + [Op(c.SlotOf(x), kind, x)]],
                        h := m.h.(issued := m.h.issued[r := kind + 1]));
      Shared(c, t) && Others(c, m, t, -1, r)
  {
    hide Chain, Cells, Copies, Publications, Results;
    var t := m.(stream := m.stream[r := m.stream[r] + [Op(c.SlotOf(x), kind, x)]],
                h := m.h.(issued := m.h.issued[r := kind + 1]));
    IssueCopies(c, m, r, x, kind);
    FrameChain(c, m, t);
    FrameCells(c, m, t);
    FramePublications(c, m, t);
    FrameResults(c, m.h, t.h);
    assert Counters(c, t);
  }

  lemma ConsIssuePc(c: Cfg, m: Mem, poisoned: bool, r: nat, k: Cons, fault: Fault)
    requires Shape(c, m) && r < c.ranks && ConsOk(c, m, r, k) && k.pc.CIssue?
    ensures var out := ConsAct(c, m, poisoned, r, k, fault);
      Shape(c, out.m) && ConsOk(c, out.m, r, out.k)
  {
  }

  lemma ConsIssueEnds(c: Cfg, m: Mem, poisoned: bool, r: nat, k: Cons, fault: Fault)
    requires Shared(c, m) && r < c.ranks && ConsOk(c, m, r, k) && k.pc.CIssue?
    requires fault.CopyError? || k.pc.kind == c.Kinds()
    ensures ConsStepOk(c, m, r, ConsAct(c, m, poisoned, r, k, fault))
  {
    ConsIssuePc(c, m, poisoned, r, k, fault);
    ConsLocalOk(c, m, r, ConsAct(c, m, poisoned, r, k, fault));
  }

  lemma ConsIssueIs(c: Cfg, m: Mem, poisoned: bool, r: nat, k: Cons, fault: Fault)
    requires Shape(c, m) && r < c.ranks && ConsOk(c, m, r, k) && k.pc.CIssue?
    requires !fault.CopyError? && k.pc.kind != c.Kinds()
    ensures var out, x, kind := ConsAct(c, m, poisoned, r, k, fault), k.pc.x, k.pc.kind;
      && out.poison.None? && kind < c.Kinds()
      && out.m == m.(stream := m.stream[r := m.stream[r] + [Op(c.SlotOf(x), kind, x)]],
                     h := m.h.(issued := m.h.issued[r := kind + 1]))
      && x == m.h.acked[r] < m.h.published && kind == m.h.issued[r] && x < c.experts
      && m.joinEpoch[r] == m.active != m.consumerDone[r]
  {
  }

  lemma ConsIssueOne(c: Cfg, m: Mem, poisoned: bool, r: nat, k: Cons, fault: Fault)
    requires Shared(c, m) && r < c.ranks && ConsOk(c, m, r, k) && k.pc.CIssue?
    requires !fault.CopyError? && k.pc.kind != c.Kinds()
    ensures ConsStepOk(c, m, r, ConsAct(c, m, poisoned, r, k, fault))
  {
    hide Chain, Cells, Counters, Copies, Publications, Results, Others;
    ConsIssuePc(c, m, poisoned, r, k, fault);
    ConsIssueIs(c, m, poisoned, r, k, fault);
    ConsIssueShared(c, m, r, k.pc.x, k.pc.kind);
  }

  lemma ConsIssue(c: Cfg, m: Mem, poisoned: bool, r: nat, k: Cons, fault: Fault)
    requires Shared(c, m) && r < c.ranks && ConsOk(c, m, r, k) && k.pc.CIssue?
    ensures ConsStepOk(c, m, r, ConsAct(c, m, poisoned, r, k, fault))
  {
    if fault.CopyError? || k.pc.kind == c.Kinds() {
      ConsIssueEnds(c, m, poisoned, r, k, fault);
    } else {
      ConsIssueOne(c, m, poisoned, r, k, fault);
    }
  }

  /** The table after all kinds of an expert is the table after one more expert. */
  lemma AckCopies(c: Cfg, m: Mem, r: nat, x: nat, row: seq<nat>)
    requires Shape(c, m) && Copies(c, m) && r < c.ranks && |row| == c.slots
    requires x == m.h.acked[r] && m.h.issued[r] == c.Kinds() && m.stream[r] == []
    ensures var t := m.(ack := m.ack[r := row],
                        h := m.h.(acked := m.h.acked[r := x + 1], issued := m.h.issued[r := 0],
                                  done := m.h.done[r := 0]));
      Shape(c, t) && Copies(c, t)
  {
    assert m.h.done[r] == c.Kinds();
  }

  lemma AckCounters(c: Cfg, m: Mem, r: nat, x: nat, sq: nat)
    requires Shape(c, m) && Counters(c, m) && r < c.ranks
    requires x == m.h.acked[r] < m.h.published && sq == m.h.base + x + 1 && x < m.h.count
    requires m.joinEpoch[r] == m.active != m.consumerDone[r]
    ensures var row: seq<nat> := m.ack[r][c.SlotOf(x) := sq];
      var t := m.(ack := m.ack[r := row],
                  h := m.h.(acked := m.h.acked[r := x + 1], issued := m.h.issued[r := 0],
                            done := m.h.done[r := 0]));
      Shape(c, t) && Counters(c, t)
  {
  }

  lemma AckOthers(c: Cfg, m: Mem, r: nat, x: nat, sq: nat)
    requires Shape(c, m) && Chain(c, m) && Counters(c, m) && r < c.ranks
    requires x == m.h.acked[r] && sq == m.h.base + x + 1 && m.joinEpoch[r] == m.active != m.consumerDone[r]
    ensures var row: seq<nat> := m.ack[r][c.SlotOf(x) := sq];
      var t := m.(ack := m.ack[r := row],
                  h := m.h.(acked := m.h.acked[r := x + 1], issued := m.h.issued[r := 0],
                            done := m.h.done[r := 0]));
      Shape(c, t) && Others(c, m, t, -1, r)
  {
    SeqBound(c, m.h.base, m.h.seq0, x, c.SlotOf(x));
  }

  lemma AckPc(c: Cfg, m: Mem, poisoned: bool, r: nat, k: Cons, fault: Fault)
    requires Shape(c, m) && r < c.ranks && ConsOk(c, m, r, k) && k.pc.CAck?
    ensures var out := ConsAct(c, m, poisoned, r, k, fault);
      Shape(c, out.m) && ConsOk(c, out.m, r, out.k)
  {
  }

  lemma AckPublications(c: Cfg, m: Mem, r: nat, k: Cons)
    requires Shape(c, m) && Publications(c, m) && r < c.ranks && ConsOk(c, m, r, k) && k.pc.CAck?
    ensures var t := ConsAct(c, m, false, r, k, NoFault).m;
      Shape(c, t) && Publications(c, t)
  {
    var t := ConsAct(c, m, false, r, k, NoFault).m;
    forall q, y | 0 <= q < c.ranks && t.h.acked[q] <= y < m.h.published ensures InSlot(c, t, y) {
      assert InSlot(c, m, y);
    }
  }

  lemma ConsAck(c: Cfg, m: Mem, poisoned: bool, r: nat, k: Cons, fault: Fault)
    requires Shared(c, m) && r < c.ranks && ConsOk(c, m, r, k) && k.pc.CAck?
    ensures ConsStepOk(c, m, r, ConsAct(c, m, poisoned, r, k, fault))
  {
    hide Chain, Cells, Counters, Copies, Publications, Results, Others, TableShape, HostShape, OpShape;
    var out := ConsAct(c, m, poisoned, r, k, fault);
    var x, sq := k.pc.x, k.pc.sq;
    AckPc(c, m, poisoned, r, k, fault);
    AckCopies(c, m, r, x, m.ack[r][c.SlotOf(x) := sq]);
    AckCounters(c, m, r, x, sq);
    AckOthers(c, m, r, x, sq);
    AckPublications(c, m, r, k);
    FrameChain(c, m, out.m);
    FrameCells(c, m, out.m);
    FrameResults(c, m.h, out.m.h);
  }

  lemma StoreBytesCells(c: Cfg, m: Mem, r: nat, b: nat)
    requires Shape(c, m) && Cells(c, m) && r < c.ranks && m.consumerDone[r] != m.active
    ensures var t := m.(bytes := m.bytes[r := b]);
      Shape(c, t) && Cells(c, t) && Others(c, m, t, -1, r)
  {
  }

  lemma StoreBytes(c: Cfg, m: Mem, poisoned: bool, r: nat, k: Cons, fault: Fault)
    requires Shared(c, m) && r < c.ranks && ConsOk(c, m, r, k) && k.pc.CBytes?
    ensures ConsStepOk(c, m, r, ConsAct(c, m, poisoned, r, k, fault))
  {
    hide Chain, Cells, Counters, Copies, Publications, Results, Others;
    var t := ConsAct(c, m, poisoned, r, k, fault).m;
    StoreBytesCells(c, m, r, k.pc.b);
    FrameChain(c, m, t);
    FrameCounters(c, m, t);
    FrameCopies(c, m, t);
    FramePublications(c, m, t);
  }

  lemma StoreDoneOthers(c: Cfg, m: Mem, r: nat)
    requires Shape(c, m) && Chain(c, m) && r < c.ranks && m.joinEpoch[r] == m.active != m.consumerDone[r]
    ensures Others(c, m, m.(consumerDone := m.consumerDone[r := m.active]), -1, r)
  {
  }

  lemma StoreConsumerDone(c: Cfg, m: Mem, poisoned: bool, r: nat, k: Cons, fault: Fault)
    requires Shared(c, m) && r < c.ranks && ConsOk(c, m, r, k) && k.pc.CDone?
    ensures ConsStepOk(c, m, r, ConsAct(c, m, poisoned, r, k, fault))
  {
    hide Copies, Publications, Results, Others;
    var t := ConsAct(c, m, poisoned, r, k, fault).m;
    StoreDoneOthers(c, m, r);
    FrameCopies(c, m, t);
    FramePublications(c, m, t);
    assert Chain(c, t);
    assert Cells(c, t);
    assert Counters(c, t);
  }

  predicate WritesInCopying(pc: ConsPc) {
    pc.CIssue? || pc.CAck? || pc.CBytes? || pc.CDone?
  }

  lemma ConsLocal(c: Cfg, m: Mem, poisoned: bool, r: nat, k: Cons, fault: Fault)
    requires Shape(c, m) && Chain(c, m) && Cells(c, m) && Counters(c, m) && r < c.ranks && ConsOk(c, m, r, k)
    requires !WritesInCopying(k.pc)
    ensures var out := ConsAct(c, m, poisoned, r, k, fault);
      out.m == m && ConsOk(c, m, r, out.k)
  {
    if k.pc.CPoll? {
      ConsPollLocal(c, m, poisoned, r, k, fault);
    } else if k.pc.CEvent? {
      ConsEventLocal(c, m, poisoned, r, k, fault);
    } else {
      ConsIdleLocal(c, m, poisoned, r, k, fault);
    }
  }

  lemma ConsWrites(c: Cfg, m: Mem, poisoned: bool, r: nat, k: Cons, fault: Fault)
    requires Shared(c, m) && r < c.ranks && ConsOk(c, m, r, k) && WritesInCopying(k.pc)
    ensures ConsStepOk(c, m, r, ConsAct(c, m, poisoned, r, k, fault))
  {
    hide Shared, ConsStepOk;
    if k.pc.CIssue? {
      ConsIssue(c, m, poisoned, r, k, fault);
    } else if k.pc.CAck? {
      ConsAck(c, m, poisoned, r, k, fault);
    } else if k.pc.CBytes? {
      StoreBytes(c, m, poisoned, r, k, fault);
    } else {
      StoreConsumerDone(c, m, poisoned, r, k, fault);
    }
  }

  lemma ConsActOk(c: Cfg, m: Mem, poisoned: bool, r: nat, k: Cons, fault: Fault)
    requires Shared(c, m) && r < c.ranks && ConsOk(c, m, r, k)
    ensures ConsStepOk(c, m, r, ConsAct(c, m, poisoned, r, k, fault))
  {
    hide Chain, Cells, Counters, Copies, Publications, Results, Others;
    if WritesInCopying(k.pc) {
      ConsWrites(c, m, poisoned, r, k, fault);
    } else {
      ConsLocal(c, m, poisoned, r, k, fault);
      ConsLocalOk(c, m, r, ConsAct(c, m, poisoned, r, k, fault));
    }
  }

  // ----- the copy streams

  /** The oldest queued copy is the next kind of the rank's current expert, and its host buffer still holds what
      the writer produced for that expert, rank and kind. */
  lemma OldestCopy(c: Cfg, m: Mem, r: nat)
    requires Shape(c, m) && Counters(c, m) && Copies(c, m) && Publications(c, m)
    requires r < c.ranks && m.stream[r] != []
    ensures var op, x, kind := m.stream[r][0], m.h.acked[r], m.h.done[r];
      && op == Op(c.SlotOf(x), kind, x) && kind < m.h.issued[r] && x < m.h.published
      && m.host[op.slot][r][op.kind] == Made(m.h.produced, m.active, x, r, kind)
      && m.stream[r][1..] == Ops(c, x, kind + 1, m.h.issued[r])
  {
    var x, kind := m.h.acked[r], m.h.done[r];
    assert InSlot(c, m, x);
    assert HostShape(c, m.h.produced[(m.active, x)]);
  }

  lemma CopyRunsCopies(c: Cfg, m: Mem, r: nat)
    requires Shape(c, m) && Counters(c, m) && Copies(c, m) && Publications(c, m)
    requires r < c.ranks && m.stream[r] != []
    ensures Shape(c, CopyOne(c, m, r)) && Copies(c, CopyOne(c, m, r))
  {
    var t := CopyOne(c, m, r);
    OldestCopy(c, m, r);
    var op := m.stream[r][0];
    assert forall i | 0 <= i < |t.stream[r]| :: t.stream[r][i] == m.stream[r][i + 1];
    assert TableShape(c, m.gpu[r]);
    assert t.gpu[r] == Put(m.gpu[r], op.kind, op.expert, m.host[op.slot][r][op.kind]);
  }

  lemma CopyRunsOk(c: Cfg, m: Mem, r: nat)
    requires Shared(c, m) && r < c.ranks && m.stream[r] != []
    ensures Shared(c, CopyOne(c, m, r)) && Others(c, m, CopyOne(c, m, r), -1, -1)
  {
    hide Chain, Cells, Counters, Copies, Publications, Results;
    var t := CopyOne(c, m, r);
    CopyRunsCopies(c, m, r);
    FrameChain(c, m, t);
    FrameCells(c, m, t);
    FrameCounters(c, m, t);
    FramePublications(c, m, t);
    FrameResults(c, m.h, t.h);
  }

  // ----- the whole system

  lemma OthersKeep(c: Cfg, s: State, t: State, api: int, cons: int)
    requires Inv(c, s) && Shared(c, t.m) && Others(c, s.m, t.m, api, cons)
    requires |t.api| == |t.cons| == c.ranks
    requires forall r | 0 <= r < c.ranks :: if r == api then ApiOk(c, t.m, r, t.api[r]) else t.api[r] == s.api[r]
    requires forall r | 0 <= r < c.ranks :: if r == cons then ConsOk(c, t.m, r, t.cons[r]) else t.cons[r] == s.cons[r]
    ensures Inv(c, t)
  {
    hide Chain, Cells, Counters, Copies, Publications, Results;
    forall r | 0 <= r < c.ranks ensures ApiOk(c, t.m, r, t.api[r]) {
      if r != api {
        StableApi(c, s.m, t.m, r, s.api[r]);
      }
    }
    forall r | 0 <= r < c.ranks ensures ConsOk(c, t.m, r, t.cons[r]) {
      if r != cons {
        StableCons(c, s.m, t.m, r, s.cons[r]);
      }
    }
  }

  lemma InvShape(c: Cfg, s: State)
    requires Inv(c, s)
    ensures StateShape(c, s)
  {
    forall r | 0 <= r < c.ranks ensures ApiShape(c, s.api[r]) && ConsShape(c, s.cons[r]) {
      assert ApiOk(c, s.m, r, s.api[r]);
      assert ConsOk(c, s.m, r, s.cons[r]);
    }
  }

  lemma CallOk(c: Cfg, m: Mem, poisoned: bool, l: Label, pc: Api)
    requires Shape(c, m) && (l.CallJoin? || l.CallProducer? || l.CallWait? || l.CallClose?)
    requires CallerOf(l) < c.ranks && ApiOk(c, m, CallerOf(l), pc) && (pc.Ready? || pc.Failed?)
    requires pc.Failed? ==> poisoned
    requires l.CallProducer? && m.h.ran ==> l.e != m.active
    ensures ApiOk(c, m, CallerOf(l), CallAct(c, m, poisoned, l))
  {
  }

  lemma CallKeeps(c: Cfg, s: State, l: Label, t: State)
    requires Inv(c, s) && StateShape(c, s) && (l.CallJoin? || l.CallProducer? || l.CallWait? || l.CallClose?)
    requires CallSteps(c, s, l, t) && FailuresKnown(s)
    ensures Inv(c, t)
  {
    hide Shared;
    CallOk(c, s.m, Poisoned(s), l, s.api[CallerOf(l)]);
    SameOthers(c, s.m, CallerOf(l), -1);
    OthersKeep(c, s, t, CallerOf(l), -1);
  }

  lemma ApiKeeps(c: Cfg, s: State, r: nat, timeout: bool, t: State)
    requires Inv(c, s) && StateShape(c, s) && ApiSteps(c, s, r, timeout, t)
    ensures Inv(c, t)
  {
    hide Shared, Shape, ApiAct;
    ApiActOk(c, s.m, Poisoned(s), r, s.api[r], timeout);
    OthersKeep(c, s, t, r, -1);
  }

  lemma FailKeeps(c: Cfg, s: State, r: nat, t: State)
    requires Inv(c, s) && StateShape(c, s) && FailSteps(c, s, r, t)
    ensures Inv(c, t)
  {
    hide Shared;
    assert ApiOk(c, s.m, r, s.api[r]);
    SameOthers(c, s.m, r, -1);
    OthersKeep(c, s, t, r, -1);
  }

  /** Rank zero's cells between layers are those of a finished layer, or of none. */
  lemma FinishedIsQuiet(c: Cfg, m: Mem)
    requires Shape(c, m) && Cells(c, m) && Counters(c, m) && !m.h.opening && m.producerDone == m.active
    ensures Quiet(m)
  {
  }

  lemma ConstructKeeps(c: Cfg, s: State, r: nat, t: State)
    requires Inv(c, s) && StateShape(c, s) && ConstructSteps(c, s, r, t)
    ensures Inv(c, t)
  {
    hide Chain, Cells, Counters, Copies, Publications, Results;
    assert ApiOk(c, s.m, r, s.api[r]);
    if r == 0 {
      FinishedIsQuiet(c, s.m);
    }
    SameOthers(c, s.m, r, -1);
    OthersKeep(c, s, t, r, -1);
  }

  /** Between layers a rank has acknowledged every publication, and no copy of it is under way. */
  lemma BetweenAcked(c: Cfg, m: Mem, r: nat)
    requires Shape(c, m) && Counters(c, m) && r < c.ranks && Between(m, r)
    ensures m.readySequence == m.ack[r] && NotStarted(m, r)
  {
  }

  lemma LoadKeeps(c: Cfg, s: State, r: nat, t: State)
    requires Inv(c, s) && StateShape(c, s) && LoadSteps(c, s, r, t)
    ensures Inv(c, t)
  {
    hide Chain, Cells, Counters, Copies, Publications, Results;
    assert ApiOk(c, s.m, r, s.api[r]);
    BetweenAcked(c, s.m, r);
    SameOthers(c, s.m, r, -1);
    OthersKeep(c, s, t, r, -1);
  }

  lemma ClearStopping(c: Cfg, m: Mem, r: nat)
    requires Shared(c, m) && r < c.ranks
    ensures var t := m.(stopping := m.stopping[r := false]);
      Shared(c, t) && Others(c, m, t, r, r)
  {
    hide Chain, Cells, Counters, Copies, Publications, Results;
    var t := m.(stopping := m.stopping[r := false]);
    FrameChain(c, m, t);
    FrameCells(c, m, t);
    FrameCounters(c, m, t);
    FrameCopies(c, m, t);
    FramePublications(c, m, t);
  }

  lemma StartKeeps(c: Cfg, s: State, r: nat, t: State)
    requires Inv(c, s) && StateShape(c, s) && StartSteps(c, s, r, t)
    ensures Inv(c, t)
  {
    hide Chain, Cells, Counters, Copies, Publications, Results, Others;
    assert ApiOk(c, s.m, r, s.api[r]);
    BetweenAcked(c, s.m, r);
    assert s.api[r].last == s.m.ack[r];
    ClearStopping(c, s.m, r);
    OthersKeep(c, s, t, r, r);
  }

  lemma WriterKeeps(c: Cfg, s: State, rank: nat, kind: nat, block: Block, t: State)
    requires Inv(c, s) && StateShape(c, s) && WriterStoreSteps(c, s, rank, kind, block, t)
    ensures Inv(c, t)
  {
    hide Shared;
    assert ApiOk(c, s.m, 0, s.api[0]);
    WriterStores(c, s.m, s.api[0].prod, rank, kind, block);
    OthersKeep(c, s, t, 0, -1);
  }

  lemma ThrowKeeps(c: Cfg, s: State, t: State)
    requires Inv(c, s) && StateShape(c, s) && WriterThrows(c, s, t)
    ensures Inv(c, t)
  {
    hide Shared;
    assert ApiOk(c, s.m, 0, s.api[0]);
    SameOthers(c, s.m, 0, -1);
    OthersKeep(c, s, t, 0, -1);
  }

  lemma ConsKeeps(c: Cfg, s: State, r: nat, fault: Fault, t: State)
    requires Inv(c, s) && StateShape(c, s) && ConsSteps(c, s, r, fault, t)
    ensures Inv(c, t)
  {
    hide Shared, ConsAct, LatchAfter;
    ConsActOk(c, s.m, Poisoned(s), r, s.cons[r], fault);
    OthersKeep(c, s, t, -1, r);
  }

  lemma CopyKeeps(c: Cfg, s: State, r: nat, t: State)
    requires Inv(c, s) && StateShape(c, s) && CopySteps(c, s, r, t)
    ensures Inv(c, t)
  {
    hide Shared;
    CopyRunsOk(c, s.m, r);
    OthersKeep(c, s, t, -1, -1);
  }

  /** Every step keeps the invariant. */
  lemma StepKeeps(c: Cfg, s: State, l: Label, t: State)
    requires Inv(c, s) && StateShape(c, s) && FailuresKnown(s) && Step(c, s, l, t)
    ensures Inv(c, t)
  {
    hide Shared, Shape, ApiOk, ConsOk, CallSteps, ApiSteps, ConsSteps, CopySteps, WriterStoreSteps, WriterThrows,
         FailSteps, ConstructSteps, LoadSteps, StartSteps, FailuresKnown;
    match l {
      case CallJoin(_, _, _, _) => CallKeeps(c, s, l, t);
      case CallProducer(_, _, _) => CallKeeps(c, s, l, t);
      case CallWait(_, _) => CallKeeps(c, s, l, t);
      case CallClose(_) => CallKeeps(c, s, l, t);
      case FailEnds(r) => FailKeeps(c, s, r, t);
      case Construct(r) => ConstructKeeps(c, s, r, t);
      case LoadSequence(r) => LoadKeeps(c, s, r, t);
      case StartThread(r) => StartKeeps(c, s, r, t);
      case ApiStep(r, timeout) => ApiKeeps(c, s, r, timeout, t);
      case WriterStore(rank, kind, block) => WriterKeeps(c, s, rank, kind, block, t);
      case WriterThrow => ThrowKeeps(c, s, t);
      case ConsStep(r, fault) => ConsKeeps(c, s, r, fault, t);
      case CopyRuns(r) => CopyKeeps(c, s, r, t);
      case LatchStep(step) =>
    }
  }

  lemma NextKeeps(c: Cfg, s: State, t: State)
    requires Inv(c, s) && StateShape(c, s) && FailuresKnown(s) && Next(c, s, t)
    ensures Inv(c, t)
  {
    hide Inv, StateShape, Step, FailuresKnown;
    var l :| Step(c, s, l, t);
    StepKeeps(c, s, l, t);
  }

  lemma LastStepKeeps(c: Cfg, run: seq<State>, i: nat)
    requires Run(c, run) && 0 < i < |run| && Inv(c, run[i - 1])
    ensures Inv(c, run[i])
  {
    hide Inv, Init, Next, StateShape, FailuresKnown;
    assert StepAt(c, run, i - 1);
    FailuresStayKnown(c, run, i - 1);
    NextKeeps(c, run[i - 1], run[i]);
  }

  lemma {:induction false} RunKeeps(c: Cfg, run: seq<State>, i: nat)
    requires Run(c, run) && i < |run|
    ensures Inv(c, run[i])
  {
    hide Shared, ApiOk, ConsOk, Init, Next;
    if i == 0 {
      InitInv(c, run[0]);
    } else {
      RunKeeps(c, run, i - 1);
      LastStepKeeps(c, run, i);
    }
  }
}
