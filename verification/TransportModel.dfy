/**
 FP8 layerwise transport: shared memory, one API thread and one copy thread per rank, the copy streams, and
 the single shared-memory accesses the threads take, under sequential consistency.

 Rank zero's API thread runs the producer. A thread's program point is a datatype constructor; one step of a
 thread performs at most one shared access.
 */
module TransportModel {
  import opened Options
  import PoisonLatch

  /** The contents of one buffer of one expert. */
  type Block = seq<nat>

  /** A rank's GPU table, indexed [kind][expert]. */
  type Table = seq<seq<Block>>

  function SumOf(sizes: seq<nat>): nat {
    if sizes == [] then 0 else SumOf(sizes[..|sizes| - 1]) + sizes[|sizes| - 1]
  }

  datatype Config = Config(ranks: nat, slots: nat, experts: nat, nbytes: seq<nat>) {
    predicate Valid() {
      && ranks > 0 && slots > 0 && experts > 0 && |nbytes| > 0
      && forall kind | 0 <= kind < |nbytes| :: nbytes[kind] > 0
    }

    function Kinds(): nat {
      |nbytes|
    }

    function SlotOf(expert: nat): (slot: nat)
      requires slots > 0
      ensures slot < slots
    {
      expert % slots
    }

    /** Bytes of one expert over all kinds. */
    function ExpertBytes(): nat {
      SumOf(nbytes)
    }
  }

  type Cfg = c: Config | c.Valid() witness Config(1, 2, 1, [1])

  /** A queued host-to-device copy: host buffer (slot, kind) to table entry (kind, expert). */
  datatype Op = Op(slot: nat, kind: nat, expert: nat)

  /** What one wait call returned, with the rank's table at that moment and at the start of the layer. */
  datatype Return = Return(rank: nat, epoch: nat, layer: int, count: nat, bytes: nat, first: bool,
                           before: Table, table: Table)

  /** Observer's bookkeeping; no thread's control flow depends on it except the usage rule of CallProducer. */
  datatype History = History(
    prev: nat,                    // the epoch that was active before the current one
    id: int, count: nat,          // layer id and expert count rank zero opened the current layer with
    base: nat, seq0: seq<nat>,    // next_sequence and ready sequences when the layer was opened
    start: seq<Table>,            // GPU tables when the layer was opened
    published: nat, fetched: nat, written: nat,  // experts of the layer past each producer stage
    acked: seq<nat>,              // experts acknowledged, by rank
    issued: seq<nat>, done: seq<nat>,  // copies issued and completed for the rank's current expert
    opening: bool,                // rank zero is rewriting the layer cells
    ran: bool,                    // run_producer has been called for the current layer
    produced: map<(nat, nat), seq<seq<Block>>>,  // (epoch, expert) to what the writer left, [rank][kind]
    layers: map<nat, (int, nat)>, // epoch to the layer id and expert count it was opened with
    results: seq<Return>)

  datatype Mem = Mem(
    active: nat, layer: int, count: nat, nextSequence: nat, producerDone: nat,
    joinEpoch: seq<nat>, consumerDone: seq<nat>, waitReturned: seq<nat>,
    readySequence: seq<nat>, readyEpoch: seq<nat>, readyExpert: seq<nat>,
    ack: seq<seq<nat>>,           // [rank][slot]
    bytes: seq<nat>,
    host: seq<seq<seq<Block>>>,   // [slot][rank][kind]
    gpu: seq<Table>,
    stream: seq<seq<Op>>,         // copies issued and not yet executed, by rank
    stopping: seq<bool>,
    h: History)

  /** Position inside wait_until: evaluating the predicate, the check after false, the check after true. */
  datatype Poll = Scan(i: nat) | Retry | Confirm

  /** Inside join; e, L, n are the epoch, layer id and expert count passed in. */
  datatype JoinPc =
    | JoinEntry(e: nat, L: int, n: nat)
    | JoinBarrier(e: nat, L: int, n: nat, prev: nat, poll: Poll)
    | JoinLayer(e: nat, L: int, n: nat)
    | JoinCount(e: nat, L: int, n: nat)
    | JoinBytes(e: nat, L: int, n: nat, i: nat)
    | JoinPublish(e: nat, L: int, n: nat)
    | JoinFollow(e: nat, L: int, n: nat, poll: Poll)
    | JoinCheckLayer(e: nat, L: int, n: nat)
    | JoinCheckCount(e: nat, L: int, n: nat)
    | JoinStore(e: nat)

  /** Inside run_producer; x is the expert being handled, sent is published_sequence, sq the fetched sequence. */
  datatype ProdPc =
    | ProdActive(e: nat, L: int, n: nat)
    | ProdLayer(e: nat, L: int, n: nat)
    | ProdCount(e: nat, L: int, n: nat)
    | ProdJoin(e: nat, L: int, n: nat)
    | ProdBarrier(e: nat, n: nat, poll: Poll)
    | ProdLoop(e: nat, n: nat, x: nat, sent: seq<nat>)
    | ProdAck(e: nat, n: nat, x: nat, sent: seq<nat>, poll: Poll)
    | ProdWrite(e: nat, n: nat, x: nat, sent: seq<nat>)
    | ProdFetch(e: nat, n: nat, x: nat, sent: seq<nat>)
    | ProdEpoch(e: nat, n: nat, x: nat, sent: seq<nat>, sq: nat)
    | ProdExpert(e: nat, n: nat, x: nat, sent: seq<nat>, sq: nat)
    | ProdSequence(e: nat, n: nat, x: nat, sent: seq<nat>, sq: nat)
    | ProdNextDrain(e: nat, n: nat, sent: seq<nat>, slot: nat)
    | ProdDrain(e: nat, n: nat, sent: seq<nat>, slot: nat, poll: Poll)
    | ProdDone(e: nat, n: nat)

  datatype WaitPc =
    | WaitJoin(e: nat)
    | WaitPoll(e: nat, poll: Poll)
    | WaitLayer(e: nat)
    | WaitCount(e: nat, L: int)
    | WaitBytes(e: nat, L: int, n: nat)
    | WaitStore(e: nat, L: int, n: nat, b: nat)

  datatype ClosePc = CloseActive | CloseDone(a: nat) | ClosePoison | CloseStop

  /** An API thread: between calls, after a call that threw with the region poisoned, in a call that throws as soon as
      its publish_poison (an attempt of the latch) returns, inside a call, closed, or constructing the transport anew
      with the ready sequences of the slots below slot loaded. */
  datatype Api =
    | Ready
    | Failed
    | Failing(attempt: nat)
    | InJoin(join: JoinPc)
    | InProducer(prod: ProdPc)
    | InWait(wait: WaitPc)
    | InClose(close: ClosePc)
    | Closed
    | Opening(slot: nat, last: seq<nat>)

  datatype PollStage =
    | PActive | PSequence | PEpoch(sq: nat) | PExpert(sq: nat) | PRetry | PConfirm(sq: nat)

  datatype EventStage = EQuery | ERetry | EConfirm

  datatype ConsPc =
    | CStart
    | CTop
    | CActive
    | CIdle
    | CJoin(ep: nat)
    | CCount(ep: nat)
    | CPoll(ep: nat, n: nat, x: nat, b: nat, stage: PollStage)
    | CIssue(ep: nat, n: nat, x: nat, b: nat, sq: nat, kind: nat)
    | CEvent(ep: nat, n: nat, x: nat, b: nat, sq: nat, event: EventStage)
    | CAck(ep: nat, n: nat, x: nat, b: nat, sq: nat)
    | CBytes(ep: nat, b: nat)
    | CDone(ep: nat)
    | CCatch
    | CGone

  /** A copy thread: its program point and its locals completed_epoch and last_ready_sequence_. */
  datatype Cons = Cons(pc: ConsPc, completed: nat, last: seq<nat>)

  datatype State = State(m: Mem, api: seq<Api>, cons: seq<Cons>, latch: PoisonLatch.Latch)

  const ERROR_PROTOCOL: nat := 1
  const ERROR_TIMEOUT: nat := 2
  const ERROR_CUDA_COPY: nat := 4
  const ERROR_WRITER: nat := 5
  const ERROR_CLOSED_WHILE_ACTIVE: nat := 6

  /** What the environment decides at a step: a timeout at a failed poll, or a failing CUDA call. */
  datatype Fault = NoFault | Timeout | CopyError

  datatype Label =
    | CallJoin(r: nat, e: nat, L: int, n: int)
    | CallProducer(e: nat, L: int, n: int)
    | CallWait(r: nat, e: nat)
    | CallClose(r: nat)
    | FailEnds(r: nat)
    | Construct(r: nat)
    | LoadSequence(r: nat)
    | StartThread(r: nat)
    | ApiStep(r: nat, timeout: bool)
    | WriterStore(rank: nat, kind: nat, block: Block)
    | WriterThrow
    | ConsStep(r: nat, fault: Fault)
    | CopyRuns(r: nat)
    | LatchStep(step: PoisonLatch.Step)

  // ----- well-formedness of indices

  predicate TableShape(c: Cfg, t: Table) {
    |t| == c.Kinds() && forall kind | 0 <= kind < |t| :: |t[kind]| == c.experts
  }

  predicate HostShape(c: Cfg, buffers: seq<seq<Block>>) {
    |buffers| == c.ranks && forall r | 0 <= r < |buffers| :: |buffers[r]| == c.Kinds()
  }

  predicate OpShape(c: Cfg, op: Op) {
    op.slot < c.slots && op.kind < c.Kinds() && op.expert < c.experts
  }

  predicate Shape(c: Cfg, m: Mem) {
    && |m.joinEpoch| == |m.consumerDone| == |m.waitReturned| == |m.ack| == |m.bytes| == c.ranks
    && |m.gpu| == |m.stream| == |m.stopping| == c.ranks
    && |m.readySequence| == |m.readyEpoch| == |m.readyExpert| == |m.host| == c.slots
    && (forall r | 0 <= r < c.ranks :: |m.ack[r]| == c.slots)
    && (forall slot | 0 <= slot < c.slots :: HostShape(c, m.host[slot]))
    && (forall r | 0 <= r < c.ranks :: TableShape(c, m.gpu[r]))
    && (forall r, i | 0 <= r < c.ranks && 0 <= i < |m.stream[r]| :: OpShape(c, m.stream[r][i]))
    && |m.h.seq0| == c.slots
    && |m.h.start| == |m.h.acked| == |m.h.issued| == |m.h.done| == c.ranks
    && (forall r | 0 <= r < c.ranks :: TableShape(c, m.h.start[r]))
  }

  /** Program points of run_producer at which published_sequence is in scope. */
  predicate InLoop(pc: ProdPc) {
    pc.ProdLoop? || pc.ProdAck? || pc.ProdWrite? || pc.ProdFetch? || pc.ProdEpoch? || pc.ProdExpert?
    || pc.ProdSequence? || pc.ProdNextDrain? || pc.ProdDrain?
  }

  predicate ProdShape(c: Cfg, pc: ProdPc) {
    && (InLoop(pc) ==> |pc.sent| == c.slots)
    && (pc.ProdDrain? ==> pc.slot < c.slots)
  }

  predicate ApiShape(c: Cfg, pc: Api) {
    && (pc.InProducer? ==> ProdShape(c, pc.prod))
    && (pc.Opening? ==> |pc.last| == c.slots)
  }

  predicate ConsShape(c: Cfg, k: Cons) {
    && |k.last| == c.slots
    && (k.pc.CPoll? || k.pc.CIssue? || k.pc.CEvent? || k.pc.CAck? ==> (k.pc.x < k.pc.n <= c.experts))
  }

  predicate StateShape(c: Cfg, s: State) {
    && Shape(c, s.m)
    && |s.api| == |s.cons| == c.ranks
    && (forall r | 0 <= r < c.ranks :: ApiShape(c, s.api[r]))
    && (forall r | 0 <= r < c.ranks :: ConsShape(c, s.cons[r]))
  }

  function Zeros(n: nat): (z: seq<nat>)
    ensures |z| == n && forall i | 0 <= i < n :: z[i] == 0
  {
    seq(n, _ => 0)
  }

  function After(i: nat, bound: nat): Poll {
    if i + 1 < bound then Scan(i + 1) else Confirm
  }

  // ----- the API thread of a rank

  /** The outcome of a thread step: new memory, new program point, and the poison the step tries to publish. */
  datatype Act = Act(m: Mem, pc: Api, poison: Option<nat>)

  function Local(m: Mem, pc: Api): Act {
    Act(m, pc, None)
  }

  function Fail(m: Mem, code: nat): Act {
    Act(m, Failed, Some(code))
  }

  /** The check wait_until makes after its predicate was false. */
  function RetryAct(m: Mem, poisoned: bool, timeout: bool, again: Api): Act {
    if poisoned then Local(m, Failed) else if timeout then Fail(m, ERROR_TIMEOUT) else Local(m, again)
  }

  /** The check wait_until makes after its predicate was true. */
  function ConfirmAct(m: Mem, poisoned: bool, next: Api): Act {
    if poisoned then Local(m, Failed) else Local(m, next)
  }

  predicate ValidArguments(c: Cfg, e: nat, L: int, n: int) {
    e != 0 && L >= 0 && 0 < n <= c.experts
  }

  /** The store to active_epoch, with the bookkeeping of a new layer. */
  function OpenLayer(c: Cfg, m: Mem, e: nat): Mem
    requires Shape(c, m)
  {
    m.(active := e,
       h := m.h.(prev := m.active, id := m.layer, count := m.count, base := m.nextSequence,
                 seq0 := m.readySequence, start := m.gpu, published := 0, fetched := 0, written := 0,
                 acked := Zeros(c.ranks), issued := Zeros(c.ranks), done := Zeros(c.ranks),
                 opening := false, ran := false, layers := m.h.layers[e := (m.layer, m.count)]))
  }

  function JoinAct(c: Cfg, m: Mem, poisoned: bool, r: nat, pc: JoinPc, timeout: bool): Act
    requires Shape(c, m) && r < c.ranks
  {
    match pc
    case JoinEntry(e, L, n) =>
      if r != 0 then Local(m, InJoin(JoinFollow(e, L, n, Scan(0))))
      else if e <= m.active then Fail(m, ERROR_PROTOCOL)
      else if m.active != 0 then Local(m, InJoin(JoinBarrier(e, L, n, m.active, Scan(0))))
      else Local(m.(h := m.h.(opening := true)), InJoin(JoinLayer(e, L, n)))
    case JoinBarrier(e, L, n, prev, Scan(i)) =>
      if i < c.ranks && m.waitReturned[i] < prev then Local(m, InJoin(JoinBarrier(e, L, n, prev, Retry)))
      else Local(m, InJoin(JoinBarrier(e, L, n, prev, After(i, c.ranks))))
    case JoinBarrier(e, L, n, prev, Retry) =>
      RetryAct(m, poisoned, timeout, InJoin(JoinBarrier(e, L, n, prev, Scan(0))))
    case JoinBarrier(e, L, n, prev, Confirm) =>
      if poisoned then Local(m, Failed)
      else Local(m.(h := m.h.(opening := true)), InJoin(JoinLayer(e, L, n)))
    case JoinLayer(e, L, n) => Local(m.(layer := L), InJoin(JoinCount(e, L, n)))
    case JoinCount(e, L, n) => Local(m.(count := n), InJoin(JoinBytes(e, L, n, 0)))
    case JoinBytes(e, L, n, i) =>
      if i < c.ranks then Local(m.(bytes := m.bytes[i := 0]), InJoin(JoinBytes(e, L, n, i + 1)))
      else Local(m, InJoin(JoinPublish(e, L, n)))
    case JoinPublish(e, L, n) => Local(OpenLayer(c, m, e), InJoin(JoinStore(e)))
    case JoinFollow(e, L, n, Scan(_)) =>
      if m.active > e then Fail(m, ERROR_PROTOCOL)
      else if m.active == e then Local(m, InJoin(JoinFollow(e, L, n, Confirm)))
      else Local(m, InJoin(JoinFollow(e, L, n, Retry)))
    case JoinFollow(e, L, n, Retry) => RetryAct(m, poisoned, timeout, InJoin(JoinFollow(e, L, n, Scan(0))))
    case JoinFollow(e, L, n, Confirm) => ConfirmAct(m, poisoned, InJoin(JoinCheckLayer(e, L, n)))
    case JoinCheckLayer(e, L, n) =>
      if m.layer != L then Fail(m, ERROR_PROTOCOL) else Local(m, InJoin(JoinCheckCount(e, L, n)))
    case JoinCheckCount(e, L, n) =>
      if m.count != n then Fail(m, ERROR_PROTOCOL) else Local(m, InJoin(JoinStore(e)))
    case JoinStore(e) => Local(m.(joinEpoch := m.joinEpoch[r := e]), Ready)
  }

  function ProducerAct(c: Cfg, m: Mem, poisoned: bool, pc: ProdPc, timeout: bool): Act
    requires Shape(c, m) && ProdShape(c, pc)
  {
    match pc
    case ProdActive(e, L, n) =>
      if m.active != e then Fail(m, ERROR_PROTOCOL) else Local(m, InProducer(ProdLayer(e, L, n)))
    case ProdLayer(e, L, n) =>
      if m.layer != L then Fail(m, ERROR_PROTOCOL) else Local(m, InProducer(ProdCount(e, L, n)))
    case ProdCount(e, L, n) =>
      if m.count != n then Fail(m, ERROR_PROTOCOL) else Local(m, InProducer(ProdJoin(e, L, n)))
    case ProdJoin(e, L, n) =>
      if m.joinEpoch[0] != e then Fail(m, ERROR_PROTOCOL)
      else Local(m.(h := m.h.(ran := true)), InProducer(ProdBarrier(e, n, Scan(0))))
    case ProdBarrier(e, n, Scan(i)) =>
      if i < c.ranks && m.joinEpoch[i] != e then Local(m, InProducer(ProdBarrier(e, n, Retry)))
      else Local(m, InProducer(ProdBarrier(e, n, After(i, c.ranks))))
    case ProdBarrier(e, n, Retry) => RetryAct(m, poisoned, timeout, InProducer(ProdBarrier(e, n, Scan(0))))
    case ProdBarrier(e, n, Confirm) => ConfirmAct(m, poisoned, InProducer(ProdLoop(e, n, 0, Zeros(c.slots))))
    case ProdLoop(e, n, x, sent) =>
      if x >= n then Local(m, InProducer(ProdNextDrain(e, n, sent, 0)))
      else if sent[c.SlotOf(x)] != 0 then Local(m, InProducer(ProdAck(e, n, x, sent, Scan(0))))
      else Local(m, InProducer(ProdWrite(e, n, x, sent)))
    case ProdAck(e, n, x, sent, Scan(i)) =>
      if i < c.ranks && m.ack[i][c.SlotOf(x)] < sent[c.SlotOf(x)]
      then Local(m, InProducer(ProdAck(e, n, x, sent, Retry)))
      else Local(m, InProducer(ProdAck(e, n, x, sent, After(i, c.ranks))))
    case ProdAck(e, n, x, sent, Retry) => RetryAct(m, poisoned, timeout, InProducer(ProdAck(e, n, x, sent, Scan(0))))
    case ProdAck(e, n, x, sent, Confirm) => ConfirmAct(m, poisoned, InProducer(ProdWrite(e, n, x, sent)))
    case ProdWrite(e, n, x, sent) =>
      // the writer callback returns
      Local(m.(h := m.h.(written := x + 1, produced := m.h.produced[(e, x) := m.host[c.SlotOf(x)]])),
            InProducer(ProdFetch(e, n, x, sent)))
    case ProdFetch(e, n, x, sent) =>
      Local(m.(nextSequence := m.nextSequence + 1, h := m.h.(fetched := x + 1)),
            InProducer(ProdEpoch(e, n, x, sent, m.nextSequence + 1)))
    case ProdEpoch(e, n, x, sent, sq) =>
      Local(m.(readyEpoch := m.readyEpoch[c.SlotOf(x) := e]), InProducer(ProdExpert(e, n, x, sent, sq)))
    case ProdExpert(e, n, x, sent, sq) =>
      Local(m.(readyExpert := m.readyExpert[c.SlotOf(x) := x]), InProducer(ProdSequence(e, n, x, sent, sq)))
    case ProdSequence(e, n, x, sent, sq) =>
      Local(m.(readySequence := m.readySequence[c.SlotOf(x) := sq], h := m.h.(published := x + 1)),
            InProducer(ProdLoop(e, n, x + 1, sent[c.SlotOf(x) := sq])))
    case ProdNextDrain(e, n, sent, slot) =>
      if slot >= c.slots then Local(m, InProducer(ProdDone(e, n)))
      else if sent[slot] == 0 then Local(m, InProducer(ProdNextDrain(e, n, sent, slot + 1)))
      else Local(m, InProducer(ProdDrain(e, n, sent, slot, Scan(0))))
    case ProdDrain(e, n, sent, slot, Scan(i)) =>
      if i < c.ranks && m.ack[i][slot] < sent[slot] then Local(m, InProducer(ProdDrain(e, n, sent, slot, Retry)))
      else Local(m, InProducer(ProdDrain(e, n, sent, slot, After(i, c.ranks))))
    case ProdDrain(e, n, sent, slot, Retry) =>
      RetryAct(m, poisoned, timeout, InProducer(ProdDrain(e, n, sent, slot, Scan(0))))
    case ProdDrain(e, n, sent, slot, Confirm) =>
      ConfirmAct(m, poisoned, InProducer(ProdNextDrain(e, n, sent, slot + 1)))
    case ProdDone(e, n) => Local(m.(producerDone := e), Ready)
  }

  function WaitAct(c: Cfg, m: Mem, poisoned: bool, r: nat, pc: WaitPc, timeout: bool): Act
    requires Shape(c, m) && r < c.ranks
  {
    match pc
    case WaitJoin(e) =>
      if e == 0 || m.joinEpoch[r] != e then Fail(m, ERROR_PROTOCOL) else Local(m, InWait(WaitPoll(e, Scan(0))))
    case WaitPoll(e, Scan(i)) =>
      if i == 0 then Local(m, InWait(WaitPoll(e, if m.consumerDone[r] >= e then Scan(1) else Retry)))
      else Local(m, InWait(WaitPoll(e, if m.producerDone >= e then Confirm else Retry)))
    case WaitPoll(e, Retry) => RetryAct(m, poisoned, timeout, InWait(WaitPoll(e, Scan(0))))
    case WaitPoll(e, Confirm) => ConfirmAct(m, poisoned, InWait(WaitLayer(e)))
    case WaitLayer(e) => Local(m, InWait(WaitCount(e, m.layer)))
    case WaitCount(e, L) => Local(m, InWait(WaitBytes(e, L, m.count)))
    case WaitBytes(e, L, n) => Local(m, InWait(WaitStore(e, L, n, m.bytes[r])))
    case WaitStore(e, L, n, b) =>
      var entry := Return(r, e, L, n, b, m.waitReturned[r] != e, m.h.start[r], m.gpu[r]);
      Local(m.(waitReturned := m.waitReturned[r := e], h := m.h.(results := m.h.results + [entry])), Ready)
  }

  function CloseAct(c: Cfg, m: Mem, poisoned: bool, r: nat, pc: ClosePc): Act
    requires Shape(c, m) && r < c.ranks
  {
    match pc
    case CloseActive => Local(m, if m.active != 0 then InClose(CloseDone(m.active)) else InClose(CloseStop))
    case CloseDone(a) => Local(m, if m.consumerDone[r] < a then InClose(ClosePoison) else InClose(CloseStop))
    case ClosePoison => Act(m, InClose(CloseStop), if poisoned then None else Some(ERROR_CLOSED_WHILE_ACTIVE))
    case CloseStop => Local(m.(stopping := m.stopping[r := true]), Closed)
  }

  /** A thread between calls, in or after a failed call, after close or constructing takes no step of a call. */
  predicate Resting(pc: Api) {
    pc.Ready? || pc.Failed? || pc.Failing? || pc.Closed? || pc.Opening?
  }

  function ApiAct(c: Cfg, m: Mem, poisoned: bool, r: nat, pc: Api, timeout: bool): Act
    requires Shape(c, m) && r < c.ranks && ApiShape(c, pc) && !Resting(pc)
  {
    match pc
    case InJoin(join) => JoinAct(c, m, poisoned, r, join, timeout)
    case InProducer(prod) => ProducerAct(c, m, poisoned, prod, timeout)
    case InWait(wait) => WaitAct(c, m, poisoned, r, wait, timeout)
    case InClose(close) => CloseAct(c, m, poisoned, r, close)
  }

  // ----- the copy thread of a rank

  datatype ConsOutcome = ConsOutcome(m: Mem, k: Cons, poison: Option<nat>)

  function Go(m: Mem, k: Cons, pc: ConsPc): ConsOutcome {
    ConsOutcome(m, k.(pc := pc), None)
  }

  function Poison(m: Mem, k: Cons, code: nat): ConsOutcome {
    ConsOutcome(m, k.(pc := CCatch), Some(code))
  }

  function PollAct(c: Cfg, m: Mem, poisoned: bool, r: nat, k: Cons, fault: Fault): ConsOutcome
    requires Shape(c, m) && r < c.ranks && ConsShape(c, k) && k.pc.CPoll?
  {
    var CPoll(ep, n, x, b, stage) := k.pc;
    var slot := c.SlotOf(x);
    match stage
    case PActive =>
      if m.active > ep then Poison(m, k, ERROR_PROTOCOL) else Go(m, k, CPoll(ep, n, x, b, PSequence))
    case PSequence =>
      if m.readySequence[slot] == k.last[slot] then Go(m, k, CPoll(ep, n, x, b, PRetry))
      else Go(m, k, CPoll(ep, n, x, b, PEpoch(m.readySequence[slot])))
    case PEpoch(sq) =>
      if m.readyEpoch[slot] != ep then Go(m, k, CPoll(ep, n, x, b, PRetry))
      else Go(m, k, CPoll(ep, n, x, b, PExpert(sq)))
    case PExpert(sq) =>
      if m.readyExpert[slot] != x then Go(m, k, CPoll(ep, n, x, b, PRetry))
      else Go(m, k, CPoll(ep, n, x, b, PConfirm(sq)))
    case PRetry =>
      if poisoned || m.stopping[r] then Go(m, k, CCatch)
      else if fault.Timeout? then Poison(m, k, ERROR_TIMEOUT)
      else Go(m, k, CPoll(ep, n, x, b, PActive))
    case PConfirm(sq) =>
      if poisoned then Go(m, k, CCatch) else Go(m, k, CIssue(ep, n, x, b, sq, 0))
  }

  /** copy_expert: one asynchronous copy per kind, then an event, then polling the event. */
  function CopyAct(c: Cfg, m: Mem, poisoned: bool, r: nat, k: Cons, fault: Fault): ConsOutcome
    requires Shape(c, m) && r < c.ranks && ConsShape(c, k) && (k.pc.CIssue? || k.pc.CEvent?)
  {
    match k.pc
    case CIssue(ep, n, x, b, sq, kind) =>
      if fault.CopyError? then Go(m, k, CCatch)
      else if kind < c.Kinds() then
        Go(m.(stream := m.stream[r := m.stream[r] + [Op(c.SlotOf(x), kind, x)]],
              h := m.h.(issued := m.h.issued[r := kind + 1])),
           k, CIssue(ep, n, x, b, sq, kind + 1))
      else Go(m, k, CEvent(ep, n, x, b, sq, EQuery))
    case CEvent(ep, n, x, b, sq, EQuery) =>
      if fault.CopyError? then Go(m, k, CCatch)
      else Go(m, k, CEvent(ep, n, x, b, sq, if m.stream[r] == [] then EConfirm else ERetry))
    case CEvent(ep, n, x, b, sq, ERetry) =>
      if poisoned || m.stopping[r] then Go(m, k, CCatch)
      else if fault.Timeout? then Poison(m, k, ERROR_TIMEOUT)
      else Go(m, k, CEvent(ep, n, x, b, sq, EQuery))
    case CEvent(ep, n, x, b, sq, EConfirm) =>
      if poisoned then Go(m, k, CCatch) else Go(m, k, CAck(ep, n, x, b + c.ExpertBytes(), sq))
  }

  function ConsAct(c: Cfg, m: Mem, poisoned: bool, r: nat, k: Cons, fault: Fault): ConsOutcome
    requires Shape(c, m) && r < c.ranks && ConsShape(c, k)
  {
    match k.pc
    case CStart => ConsOutcome(m, Cons(CTop, m.consumerDone[r], k.last), None)
    case CTop => Go(m, k, if m.stopping[r] then CGone else CActive)
    case CActive => Go(m, k, if m.active == 0 || m.active <= k.completed then CIdle else CJoin(m.active))
    case CIdle => Go(m, k, if poisoned then CCatch else CTop)
    case CJoin(ep) => Go(m, k, if m.joinEpoch[r] != ep then CIdle else CCount(ep))
    case CCount(ep) =>
      if m.count == 0 || m.count > c.experts then Poison(m, k, ERROR_PROTOCOL)
      else Go(m, k, CPoll(ep, m.count, 0, 0, PActive))
    case CPoll(ep, n, x, b, stage) => PollAct(c, m, poisoned, r, k, fault)
    case CIssue(ep, n, x, b, sq, kind) => CopyAct(c, m, poisoned, r, k, fault)
    case CEvent(ep, n, x, b, sq, event) => CopyAct(c, m, poisoned, r, k, fault)
    case CAck(ep, n, x, b, sq) =>
      var slot := c.SlotOf(x);
      var row: seq<nat> := m.ack[r][slot := sq];
      ConsOutcome(
        m.(ack := m.ack[r := row],
           h := m.h.(acked := m.h.acked[r := x + 1], issued := m.h.issued[r := 0], done := m.h.done[r := 0])),
        Cons(if x + 1 < n then CPoll(ep, n, x + 1, b, PActive) else CBytes(ep, b),
             k.completed, k.last[slot := sq]),
        None)
    case CBytes(ep, b) => Go(m.(bytes := m.bytes[r := b]), k, CDone(ep))
    case CDone(ep) =>
      ConsOutcome(m.(consumerDone := m.consumerDone[r := ep]), Cons(CTop, ep, k.last), None)
    case CCatch =>
      ConsOutcome(m, k.(pc := CGone), if m.stopping[r] then None else Some(ERROR_CUDA_COPY))
    case CGone => Go(m, k, CGone)
  }

  /** The device executes the oldest copy queued on rank r's stream. */
  function CopyOne(c: Cfg, m: Mem, r: nat): Mem
    requires Shape(c, m) && r < c.ranks && m.stream[r] != []
  {
    var op := m.stream[r][0];
    var t := m.gpu[r];
    m.(gpu := m.gpu[r := t[op.kind := t[op.kind][op.expert := m.host[op.slot][r][op.kind]]]],
       stream := m.stream[r := m.stream[r][1..]],
       h := m.h.(done := m.h.done[r := m.h.done[r] + 1]))
  }

  // ----- steps of the whole system

  predicate Poisoned(s: State) {
    !s.latch.word.Healthy?
  }

  /** The latch after a step that may have started a publish_poison with some text. */
  ghost predicate LatchAfter(before: PoisonLatch.Latch, poison: Option<nat>, rank: nat, after: PoisonLatch.Latch) {
    match poison
    case None => after == before
    case Some(code) => exists text ::
      PoisonLatch.Enabled(before, PoisonLatch.Spawn(code, rank, text))
      && after == PoisonLatch.Apply(before, PoisonLatch.Spawn(code, rank, text))
  }

  /** The program point a call moves to; refused arguments leave the thread where it was. */
  function CallAct(c: Cfg, m: Mem, poisoned: bool, l: Label): Api
    requires l.CallJoin? || l.CallProducer? || l.CallWait? || l.CallClose?
  {
    match l
    case CallClose(_) => InClose(CloseActive)
    case CallJoin(r, e, L, n) =>
      if poisoned then Failed else if ValidArguments(c, e, L, n) then InJoin(JoinEntry(e, L, n)) else Ready
    case CallProducer(e, L, n) =>
      if poisoned then Failed else if ValidArguments(c, e, L, n) then InProducer(ProdActive(e, L, n)) else Ready
    case CallWait(r, e) =>
      if poisoned then Failed else InWait(WaitJoin(e))
  }

  function CallerOf(l: Label): nat
    requires l.CallJoin? || l.CallProducer? || l.CallWait? || l.CallClose?
  {
    if l.CallProducer? then 0 else l.r
  }

  /** Calls come between calls, also after failed ones. run_producer is called once per layer. */
  predicate MayCall(c: Cfg, s: State, l: Label)
    requires StateShape(c, s)
    requires l.CallJoin? || l.CallProducer? || l.CallWait? || l.CallClose?
  {
    && CallerOf(l) < c.ranks
    && (s.api[CallerOf(l)].Ready? || s.api[CallerOf(l)].Failed?)
    && (l.CallProducer? && s.m.h.ran ==> l.e != s.m.active)
  }

  function StoreBuffer(buffers: seq<seq<Block>>, rank: nat, kind: nat, block: Block): seq<seq<Block>>
    requires rank < |buffers| && kind < |buffers[rank]|
  {
    buffers[rank := buffers[rank][kind := block]]
  }

  /** A call moves the caller's thread to the call's first access. */
  ghost predicate CallSteps(c: Cfg, s: State, l: Label, t: State)
    requires StateShape(c, s)
    requires l.CallJoin? || l.CallProducer? || l.CallWait? || l.CallClose?
  {
    MayCall(c, s, l) && t == s.(api := s.api[CallerOf(l) := CallAct(c, s.m, Poisoned(s), l)])
  }

  /** The thread after its step: a call that fails by poisoning still has its own publication to finish. */
  function Landed(pc: Api, poison: Option<nat>, attempts: nat): Api {
    if pc.Failed? && poison.Some? then Failing(attempts) else pc
  }

  ghost predicate ApiSteps(c: Cfg, s: State, r: nat, timeout: bool, t: State)
    requires StateShape(c, s)
  {
    && r < c.ranks && !Resting(s.api[r])
    && var act := ApiAct(c, s.m, Poisoned(s), r, s.api[r], timeout);
    && t.m == act.m && t.cons == s.cons
    && t.api == s.api[r := Landed(act.pc, act.poison, |s.latch.attempts|)]
    && LatchAfter(s.latch, act.poison, r, t.latch)
  }

  /** publish_poison has returned, and the call throws. */
  ghost predicate FailSteps(c: Cfg, s: State, r: nat, t: State)
    requires StateShape(c, s)
  {
    && r < c.ranks && s.api[r].Failing? && s.api[r].attempt < |s.latch.attempts|
    && PoisonLatch.Ended(s.latch.attempts[s.api[r].attempt])
    && t == s.(api := s.api[r := Failed])
  }

  /** The rank has finished the active layer, or not joined it. */
  predicate Between(m: Mem, r: nat)
    requires r < |m.consumerDone| && r < |m.joinEpoch|
  {
    m.consumerDone[r] == m.active || m.joinEpoch[r] != m.active
  }

  /** A rank that closed its transport constructs a new one on the same region, between layers; rank zero after its
      run_producer of the last layer. */
  ghost predicate ConstructSteps(c: Cfg, s: State, r: nat, t: State)
    requires StateShape(c, s)
  {
    && r < c.ranks && s.api[r].Closed? && s.cons[r].pc.CGone? && Between(s.m, r)
    && (r == 0 ==> s.m.producerDone == s.m.active)
    && t == s.(api := s.api[r := Opening(0, Zeros(c.slots))])
  }

  /** The constructor loads the ready sequence of the next slot. */
  ghost predicate LoadSteps(c: Cfg, s: State, r: nat, t: State)
    requires StateShape(c, s)
  {
    && r < c.ranks && s.api[r].Opening? && s.api[r].slot < c.slots
    && var Opening(slot, last) := s.api[r];
    t == s.(api := s.api[r := Opening(slot + 1, last[slot := s.m.readySequence[slot]])])
  }

  /** The constructor starts the copy thread and returns. */
  ghost predicate StartSteps(c: Cfg, s: State, r: nat, t: State)
    requires StateShape(c, s)
  {
    && r < c.ranks && s.api[r].Opening? && s.api[r].slot == c.slots
    && t == s.(m := s.m.(stopping := s.m.stopping[r := false]), api := s.api[r := Ready],
               cons := s.cons[r := Cons(CStart, 0, s.api[r].last)])
  }

  /** The writer callback stores into the slot of the expert it is called for. */
  ghost predicate WriterStoreSteps(c: Cfg, s: State, rank: nat, kind: nat, block: Block, t: State)
    requires StateShape(c, s)
  {
    && s.api[0].InProducer? && s.api[0].prod.ProdWrite? && rank < c.ranks && kind < c.Kinds()
    && var slot := c.SlotOf(s.api[0].prod.x);
    t == s.(m := s.m.(host := s.m.host[slot := StoreBuffer(s.m.host[slot], rank, kind, block)]))
  }

  ghost predicate WriterThrows(c: Cfg, s: State, t: State)
    requires StateShape(c, s)
  {
    && s.api[0].InProducer? && s.api[0].prod.ProdWrite?
    && t.m == s.m && t.api == s.api[0 := Failing(|s.latch.attempts|)] && t.cons == s.cons
    && LatchAfter(s.latch, Some(ERROR_WRITER), 0, t.latch)
  }

  ghost predicate ConsSteps(c: Cfg, s: State, r: nat, fault: Fault, t: State)
    requires StateShape(c, s)
  {
    && r < c.ranks
    && var out := ConsAct(c, s.m, Poisoned(s), r, s.cons[r], fault);
    && t.m == out.m && t.api == s.api && t.cons == s.cons[r := out.k]
    && LatchAfter(s.latch, out.poison, r, t.latch)
  }

  ghost predicate CopySteps(c: Cfg, s: State, r: nat, t: State)
    requires StateShape(c, s)
  {
    r < c.ranks && s.m.stream[r] != [] && t == s.(m := CopyOne(c, s.m, r))
  }

  ghost predicate LatchSteps(s: State, step: PoisonLatch.Step, t: State) {
    !step.Spawn? && PoisonLatch.Enabled(s.latch, step) && t == s.(latch := PoisonLatch.Apply(s.latch, step))
  }

  ghost predicate Step(c: Cfg, s: State, l: Label, t: State)
    requires StateShape(c, s)
  {
    match l
    case CallJoin(_, _, _, _) => CallSteps(c, s, l, t)
    case CallProducer(_, _, _) => CallSteps(c, s, l, t)
    case CallWait(_, _) => CallSteps(c, s, l, t)
    case CallClose(_) => CallSteps(c, s, l, t)
    case FailEnds(r) => FailSteps(c, s, r, t)
    case Construct(r) => ConstructSteps(c, s, r, t)
    case LoadSequence(r) => LoadSteps(c, s, r, t)
    case StartThread(r) => StartSteps(c, s, r, t)
    case ApiStep(r, timeout) => ApiSteps(c, s, r, timeout, t)
    case WriterStore(rank, kind, block) => WriterStoreSteps(c, s, rank, kind, block, t)
    case WriterThrow => WriterThrows(c, s, t)
    case ConsStep(r, fault) => ConsSteps(c, s, r, fault, t)
    case CopyRuns(r) => CopySteps(c, s, r, t)
    case LatchStep(step) => LatchSteps(s, step, t)
  }

  /** A freshly initialised control region, transports constructed on it, arbitrary buffer contents. */
  ghost predicate Init(c: Cfg, s: State) {
    && StateShape(c, s)
    && s.latch == PoisonLatch.INITIAL
    && s.m.active == 0 && s.m.layer == 0 && s.m.count == 0 && s.m.nextSequence == 0 && s.m.producerDone == 0
    && s.m.joinEpoch == s.m.consumerDone == s.m.waitReturned == s.m.bytes == Zeros(c.ranks)
    && s.m.readySequence == s.m.readyEpoch == s.m.readyExpert == Zeros(c.slots)
    && (forall r | 0 <= r < c.ranks :: s.m.ack[r] == Zeros(c.slots))
    && (forall r | 0 <= r < c.ranks :: s.m.stream[r] == [] && !s.m.stopping[r])
    && (forall r | 0 <= r < c.ranks :: s.api[r] == Ready)
    && (forall r | 0 <= r < c.ranks :: s.cons[r] == Cons(CTop, 0, Zeros(c.slots)))
    && s.m.h == History(0, 0, 0, 0, Zeros(c.slots), s.m.gpu, 0, 0, 0, Zeros(c.ranks), Zeros(c.ranks),
                        Zeros(c.ranks), false, false, map[], map[], [])
  }

  ghost predicate Next(c: Cfg, s: State, t: State)
    requires StateShape(c, s)
  {
    exists l :: Step(c, s, l, t)
  }

  ghost predicate StepAt(c: Cfg, run: seq<State>, i: nat)
    requires i + 1 < |run| && StateShape(c, run[i])
  {
    Next(c, run[i], run[i + 1])
  }

  /** A run: states linked by steps. */
  ghost predicate Run(c: Cfg, run: seq<State>) {
    && |run| > 0
    && Init(c, run[0])
    && (forall i | 0 <= i < |run| :: StateShape(c, run[i]))
    && forall i | 0 <= i < |run| - 1 :: StepAt(c, run, i)
  }
}
