/**
 What every reachable state of the transport satisfies: facts about memory, and for each program point of a
 thread the facts that thread may rely on. No thread's facts mention another thread's program point.
 */
module TransportInvariant {
  import opened TransportModel

  // ----- sequence numbers of the current layer

  /** The ready (or acknowledged) sequences after the first p experts of a layer: expert x of the layer has
      sequence base + x + 1. */
  function SeqAt(c: Cfg, base: nat, seq0: seq<nat>, p: nat): (s: seq<nat>)
    requires |seq0| == c.slots
    ensures |s| == c.slots
  {
    if p == 0 then seq0 else SeqAt(c, base, seq0, p - 1)[c.SlotOf(p - 1) := base + p]
  }

  lemma MultipleOutside(n: nat, k: int)
    ensures k >= 1 ==> n * k >= n
    ensures k <= -1 ==> n * k + n <= 0
  {
  }

  lemma ModUnique(a: nat, n: nat, q: int, rem: nat)
    requires rem < n && a == n * q + rem
    ensures a % n == rem
  {
    var k := a / n - q;
    calc {
      n * k;
      n * (a / n) - n * q;
      (a - a % n) - (a - rem);
    }
    MultipleOutside(n, k);
  }

  lemma ModShift(x: nat, n: nat)
    requires 0 < n <= x
    ensures (x - n) % n == x % n
  {
    var q := x / n - 1;
    assert n * q == n * (x / n) - n;
    ModUnique(x - n, n, q, x % n);
  }

  lemma ModDistinct(a: nat, b: nat, n: nat)
    requires a < b < a + n
    ensures a % n != b % n
  {
    var k := b / n - a / n;
    calc {
      n * k;
      n * (b / n) - n * (a / n);
      (b - b % n) - (a - a % n);
    }
    MultipleOutside(n, k);
  }

  lemma {:induction false} SeqBound(c: Cfg, base: nat, seq0: seq<nat>, p: nat, slot: nat)
    requires |seq0| == c.slots && slot < c.slots && seq0[slot] <= base
    ensures SeqAt(c, base, seq0, p)[slot] <= base + p
  {
    if p > 0 {
      SeqBound(c, base, seq0, p - 1, slot);
    }
  }

  /** Until a slot is reused its sequence stays that of the expert last put there. */
  lemma {:induction false} SeqFresh(c: Cfg, base: nat, seq0: seq<nat>, x: nat, p: nat)
    requires |seq0| == c.slots && x < p <= x + c.slots
    ensures SeqAt(c, base, seq0, p)[c.SlotOf(x)] == base + x + 1
  {
    if p > x + 1 {
      ModDistinct(x, p - 1, c.slots);
      SeqFresh(c, base, seq0, x, p - 1);
    }
  }

  // ----- the plain nested copy loop

  function Put(t: Table, kind: nat, expert: nat, block: Block): Table {
    if kind < |t| && expert < |t[kind]| then t[kind := t[kind][expert := block]] else t
  }

  /** What the writer left for (epoch, expert, rank, kind). */
  function Made(produced: map<(nat, nat), seq<seq<Block>>>, e: nat, x: nat, r: nat, kind: nat): Block {
    if (e, x) in produced && r < |produced[(e, x)]| && kind < |produced[(e, x)][r]|
    then produced[(e, x)][r][kind] else []
  }

  /** Table t after copying, expert by expert and kind by kind, x whole experts and k kinds of expert x. */
  function CopyLoop(kinds: nat, t: Table, produced: map<(nat, nat), seq<seq<Block>>>, e: nat, r: nat,
                    x: nat, k: nat): Table
    decreases x, k
  {
    if k > 0 then Put(CopyLoop(kinds, t, produced, e, r, x, k - 1), k - 1, x, Made(produced, e, x, r, k - 1))
    else if x > 0 then CopyLoop(kinds, t, produced, e, r, x - 1, kinds)
    else t
  }

  // ----- memory

  predicate InPair(h: History, active: nat, v: nat) {
    v == h.prev || v == active
  }

  /** Every epoch cell holds the active epoch or the one before; the cells of a rank are chained. */
  ghost predicate Chain(c: Cfg, m: Mem)
    requires Shape(c, m)
  {
    && (m.h.prev < m.active || m.h.prev == m.active == 0)
    && InPair(m.h, m.active, m.producerDone)
    && (forall r | 0 <= r < c.ranks ::
      && m.waitReturned[r] <= m.consumerDone[r] <= m.joinEpoch[r]
      && m.waitReturned[r] <= m.producerDone
      && InPair(m.h, m.active, m.waitReturned[r])
      && InPair(m.h, m.active, m.consumerDone[r])
      && InPair(m.h, m.active, m.joinEpoch[r]))
    && (m.h.opening ==> forall r | 0 <= r < c.ranks :: m.waitReturned[r] == m.active)
  }

  /** The layer cells describe the current layer, except while rank zero rewrites them. */
  ghost predicate Cells(c: Cfg, m: Mem)
    requires Shape(c, m)
  {
    && (!m.h.opening ==> m.layer == m.h.id && m.count == m.h.count)
    && (m.active == 0 ==> m.h.count == 0)
    && (m.active != 0 ==>
      0 < m.h.count <= c.experts && m.active in m.h.layers && m.h.layers[m.active] == (m.h.id, m.h.count))
    && (forall e | e in m.h.layers :: e <= m.active)
    && (!m.h.opening ==> forall r | 0 <= r < c.ranks ::
      m.consumerDone[r] == m.active ==> m.bytes[r] == m.h.count * c.ExpertBytes())
  }

  ghost predicate Counters(c: Cfg, m: Mem)
    requires Shape(c, m)
  {
    && m.h.published <= m.h.fetched <= m.h.written <= m.h.count
    && m.h.written <= m.h.published + 1 && (m.h.written > 0 ==> m.h.ran)
    && m.nextSequence == m.h.base + m.h.fetched
    && (forall slot | 0 <= slot < c.slots :: m.h.seq0[slot] <= m.h.base)
    && m.readySequence == SeqAt(c, m.h.base, m.h.seq0, m.h.published)
    && (forall r | 0 <= r < c.ranks ::
      && m.h.acked[r] <= m.h.published <= m.h.acked[r] + c.slots
      && m.ack[r] == SeqAt(c, m.h.base, m.h.seq0, m.h.acked[r])
      && (m.joinEpoch[r] != m.active ==> m.h.acked[r] == 0 && m.h.issued[r] == 0)
      && (m.consumerDone[r] == m.active ==> m.h.acked[r] == m.h.count && m.h.issued[r] == 0)
      && (m.h.written > 0 ==> m.joinEpoch[r] == m.active)
      && (m.producerDone == m.active ==> m.h.acked[r] == m.h.count))
    && (m.producerDone == m.active ==> m.h.published == m.h.count)
  }

  function Ops(c: Cfg, x: nat, lo: nat, hi: nat): (ops: seq<Op>)
    requires lo <= hi
    ensures |ops| == hi - lo
    ensures forall i | 0 <= i < |ops| :: ops[i] == Op(c.SlotOf(x), lo + i, x)
  {
    seq(hi - lo, i requires 0 <= i => Op(c.SlotOf(x), lo + i, x))
  }

  /** The copy streams and GPU tables: each rank's table is what the plain loop has built so far. */
  ghost predicate Copies(c: Cfg, m: Mem)
    requires Shape(c, m)
  {
    forall r | 0 <= r < c.ranks ::
      && m.h.done[r] <= m.h.issued[r] <= c.Kinds()
      && m.stream[r] == Ops(c, m.h.acked[r], m.h.done[r], m.h.issued[r])
      && (m.h.issued[r] > 0 ==> m.h.acked[r] < m.h.published)
      && m.gpu[r] == CopyLoop(c.Kinds(), m.h.start[r], m.h.produced, m.active, r, m.h.acked[r], m.h.done[r])
  }

  /** Expert x of the current layer is in its host slot, and the slot's ready fields say so. */
  ghost predicate InSlot(c: Cfg, m: Mem, x: nat)
    requires Shape(c, m)
  {
    && m.readyEpoch[c.SlotOf(x)] == m.active
    && m.readyExpert[c.SlotOf(x)] == x
    && (m.active, x) in m.h.produced
    && m.host[c.SlotOf(x)] == m.h.produced[(m.active, x)]
  }

  ghost predicate Publications(c: Cfg, m: Mem)
    requires Shape(c, m)
  {
    && (forall r, x | 0 <= r < c.ranks && m.h.acked[r] <= x < m.h.published :: InSlot(c, m, x))
    && (forall x | 0 <= x < m.h.written :: (m.active, x) in m.h.produced)
    && (forall key | key in m.h.produced :: key.0 <= m.active && (key.0 == m.active ==> key.1 < m.h.written))
    && (forall key | key in m.h.produced :: HostShape(c, m.h.produced[key]))
  }

  /** A first wait of an epoch returned that epoch's statistics, and the table the plain copy loop builds from
      what the writer produced for that epoch and rank. */
  ghost predicate ReturnOk(c: Cfg, h: History, entry: Return) {
    && entry.rank < c.ranks
    && TableShape(c, entry.before)
    && (entry.first ==>
      && entry.epoch in h.layers
      && h.layers[entry.epoch] == (entry.layer, entry.count)
      && entry.count <= c.experts
      && entry.bytes == entry.count * c.ExpertBytes()
      && (forall x | 0 <= x < entry.count ::
        (entry.epoch, x) in h.produced && HostShape(c, h.produced[(entry.epoch, x)]))
      && entry.table == CopyLoop(c.Kinds(), entry.before, h.produced, entry.epoch, entry.rank, entry.count, 0))
  }

  ghost predicate Results(c: Cfg, h: History) {
    forall i | 0 <= i < |h.results| :: ReturnOk(c, h, h.results[i])
  }

  ghost predicate Shared(c: Cfg, m: Mem) {
    Shape(c, m) && Chain(c, m) && Cells(c, m) && Counters(c, m) && Copies(c, m) && Publications(c, m) && Results(c, m.h)
  }

  // ----- API threads

  /** Rank zero is outside run_producer and outside the rewriting of the layer cells. */
  ghost predicate Quiet(m: Mem) {
    && !m.h.opening
    && (!m.h.ran ==> m.h.written == 0 && (m.active != 0 ==> m.producerDone != m.active))
    && (m.h.ran ==> m.producerDone == m.active)
  }

  /** run_producer of the active layer is past its barrier. */
  ghost predicate Running(c: Cfg, m: Mem, e: nat, n: nat)
    requires Shape(c, m)
  {
    && e == m.active && e > 0 && n == m.h.count && m.h.ran && !m.h.opening && m.producerDone != m.active
    && (forall j | 0 <= j < c.ranks :: m.joinEpoch[j] == m.active)
  }

  /** A follower is joining the active epoch, or an epoch it already joined. */
  ghost predicate Follows(m: Mem, r: nat, e: nat)
    requires r < |m.joinEpoch|
  {
    e == m.joinEpoch[r] || (e == m.active && m.joinEpoch[r] != m.active)
  }

  /** How many ranks the current evaluation of a wait_until predicate has found ready. */
  function Checked(c: Cfg, poll: Poll): nat {
    match poll
    case Scan(i) => if i < c.ranks then i else c.ranks
    case Retry => 0
    case Confirm => c.ranks
  }

  ghost predicate JoinOk(c: Cfg, m: Mem, r: nat, pc: JoinPc)
    requires Shape(c, m) && r < c.ranks
  {
    match pc
    case JoinEntry(e, L, n) => ValidArguments(c, e, L, n) && (r == 0 ==> Quiet(m))
    case JoinBarrier(e, L, n, prev, poll) =>
      && ValidArguments(c, e, L, n) && r == 0 && Quiet(m) && prev == m.active < e
      && forall j | 0 <= j < Checked(c, poll) :: m.waitReturned[j] >= prev
    case JoinLayer(e, L, n) => ValidArguments(c, e, L, n) && r == 0 && m.h.opening && m.active < e
    case JoinCount(e, L, n) => ValidArguments(c, e, L, n) && r == 0 && m.h.opening && m.active < e && m.layer == L
    case JoinBytes(e, L, n, i) =>
      ValidArguments(c, e, L, n) && r == 0 && m.h.opening && m.active < e && m.layer == L && m.count == n
    case JoinPublish(e, L, n) =>
      ValidArguments(c, e, L, n) && r == 0 && m.h.opening && m.active < e && m.layer == L && m.count == n
    case JoinFollow(e, L, n, poll) => r != 0 && e > 0 && (poll.Confirm? ==> Follows(m, r, e))
    case JoinCheckLayer(e, L, n) => r != 0 && e > 0 && Follows(m, r, e)
    case JoinCheckCount(e, L, n) => r != 0 && e > 0 && Follows(m, r, e)
    case JoinStore(e) =>
      && e > 0
      && (r != 0 ==> Follows(m, r, e))
      && (r == 0 ==> e == m.active && !m.h.ran && Quiet(m) && m.joinEpoch[0] != m.active)
  }

  /** The producer is at expert x: everything before is published, and sent is published_sequence. */
  ghost predicate AtExpert(c: Cfg, m: Mem, e: nat, n: nat, x: nat, sent: seq<nat>)
    requires Shape(c, m)
  {
    Running(c, m, e, n) && m.h.published == x && sent == SeqAt(c, m.h.base, Zeros(c.slots), x)
  }

  /** No rank still needs the slot expert x goes into. */
  ghost predicate SlotFree(c: Cfg, m: Mem, x: nat)
    requires Shape(c, m)
  {
    forall j | 0 <= j < c.ranks :: x < m.h.acked[j] + c.slots
  }

  /** The writer has returned for expert x and nothing has touched the slot since. */
  ghost predicate Written(c: Cfg, m: Mem, e: nat, n: nat, x: nat, sent: seq<nat>)
    requires Shape(c, m)
  {
    && AtExpert(c, m, e, n, x, sent) && x < n && SlotFree(c, m, x) && m.h.written == x + 1
    && (m.active, x) in m.h.produced && m.host[c.SlotOf(x)] == m.h.produced[(m.active, x)]
  }

  ghost predicate Drained(c: Cfg, m: Mem, sent: seq<nat>, slots: nat)
    requires Shape(c, m) && |sent| == c.slots
  {
    forall slot, j | 0 <= slot < slots && slot < c.slots && 0 <= j < c.ranks :: m.ack[j][slot] >= sent[slot]
  }

  ghost predicate ProducerOk(c: Cfg, m: Mem, pc: ProdPc)
    requires Shape(c, m) && ProdShape(c, pc)
  {
    match pc
    case ProdActive(e, L, n) => ValidArguments(c, e, L, n) && Quiet(m) && (m.h.ran ==> e != m.active)
    case ProdLayer(e, L, n) => ValidArguments(c, e, L, n) && Quiet(m) && !m.h.ran && e == m.active
    case ProdCount(e, L, n) => ValidArguments(c, e, L, n) && Quiet(m) && !m.h.ran && e == m.active
    case ProdJoin(e, L, n) =>
      ValidArguments(c, e, L, n) && Quiet(m) && !m.h.ran && e == m.active && n == m.h.count
    case ProdBarrier(e, n, poll) =>
      && e == m.active && e > 0 && n == m.h.count && m.h.ran && !m.h.opening && m.producerDone != m.active
      && m.h.written == 0 && m.joinEpoch[0] == m.active
      && forall j | 0 <= j < Checked(c, poll) :: m.joinEpoch[j] == e
    case ProdLoop(e, n, x, sent) => AtExpert(c, m, e, n, x, sent) && m.h.written == x <= n
    case ProdAck(e, n, x, sent, poll) =>
      && AtExpert(c, m, e, n, x, sent) && m.h.written == x < n
      && sent[c.SlotOf(x)] != 0
      && forall j | 0 <= j < Checked(c, poll) :: m.ack[j][c.SlotOf(x)] >= sent[c.SlotOf(x)]
    case ProdWrite(e, n, x, sent) => AtExpert(c, m, e, n, x, sent) && m.h.written == x < n && SlotFree(c, m, x)
    case ProdFetch(e, n, x, sent) => Written(c, m, e, n, x, sent) && m.h.fetched == x
    case ProdEpoch(e, n, x, sent, sq) =>
      Written(c, m, e, n, x, sent) && m.h.fetched == x + 1 && sq == m.h.base + x + 1
    case ProdExpert(e, n, x, sent, sq) =>
      && Written(c, m, e, n, x, sent) && m.h.fetched == x + 1 && sq == m.h.base + x + 1
      && m.readyEpoch[c.SlotOf(x)] == e
    case ProdSequence(e, n, x, sent, sq) =>
      && Written(c, m, e, n, x, sent) && m.h.fetched == x + 1 && sq == m.h.base + x + 1
      && m.readyEpoch[c.SlotOf(x)] == e && m.readyExpert[c.SlotOf(x)] == x
    case ProdNextDrain(e, n, sent, slot) =>
      AtExpert(c, m, e, n, n, sent) && m.h.written == n && Drained(c, m, sent, slot)
    case ProdDrain(e, n, sent, slot, poll) =>
      && AtExpert(c, m, e, n, n, sent) && m.h.written == n && Drained(c, m, sent, slot)
      && forall j | 0 <= j < Checked(c, poll) :: m.ack[j][slot] >= sent[slot]
    case ProdDone(e, n) =>
      && Running(c, m, e, n) && m.h.published == m.h.written == n
      && (forall j | 0 <= j < c.ranks :: m.h.acked[j] == n)
  }

  /** The loads of wait are past its barrier. */
  ghost predicate Passed(m: Mem, r: nat, e: nat)
    requires r < |m.joinEpoch| && r < |m.consumerDone|
  {
    e > 0 && m.joinEpoch[r] == e && m.consumerDone[r] >= e && m.producerDone >= e
  }

  ghost predicate WaitOk(c: Cfg, m: Mem, r: nat, pc: WaitPc)
    requires Shape(c, m) && r < c.ranks
  {
    && (r == 0 ==> Quiet(m))
    && match pc
       case WaitJoin(e) => true
       case WaitPoll(e, poll) =>
         && e > 0 && m.joinEpoch[r] == e
         && (poll.Scan? && poll.i > 0 ==> m.consumerDone[r] >= e)
         && (poll.Confirm? ==> Passed(m, r, e))
       case WaitLayer(e) => Passed(m, r, e)
       case WaitCount(e, L) => Passed(m, r, e) && (m.waitReturned[r] != e ==> L == m.h.id)
       case WaitBytes(e, L, n) =>
         Passed(m, r, e) && (m.waitReturned[r] != e ==> L == m.h.id && n == m.h.count)
       case WaitStore(e, L, n, b) =>
         && Passed(m, r, e)
         && (m.waitReturned[r] != e ==> L == m.h.id && n == m.h.count && b == n * c.ExpertBytes())
  }

  ghost predicate ApiOk(c: Cfg, m: Mem, r: nat, pc: Api)
    requires Shape(c, m) && r < c.ranks
  {
    && ApiShape(c, pc)
    && match pc
       case InJoin(join) => JoinOk(c, m, r, join)
       case InProducer(prod) => r == 0 && ProducerOk(c, m, prod)
       case InWait(wait) => WaitOk(c, m, r, wait)
       case Ready => r == 0 ==> Quiet(m)
       case Failed => r == 0 ==> !m.h.opening
       case InClose(_) => r == 0 ==> !m.h.opening
       case Failing(_) => r == 0 ==> !m.h.opening
       case Closed => r == 0 ==> !m.h.opening
       case Opening(slot, last) =>
         && Between(m, r) && (r == 0 ==> Quiet(m))
         && forall i | 0 <= i < slot && i < c.slots :: last[i] == m.ack[r][i]
  }

  // ----- copy threads

  /** The copy thread works on expert x of the active layer, b bytes copied so far. */
  ghost predicate InLayer(c: Cfg, m: Mem, r: nat, ep: nat, n: nat, x: nat)
    requires Shape(c, m) && r < c.ranks
  {
    && ep == m.active && ep > 0 && m.joinEpoch[r] == ep && m.consumerDone[r] != ep
    && n == m.h.count && x == m.h.acked[r] && x < n <= c.experts
  }

  /** It accepted expert x's own publication. */
  ghost predicate Accepted(m: Mem, x: nat, sq: nat) {
    x < m.h.published && sq == m.h.base + x + 1
  }

  /** The copy thread is between layers. */
  ghost predicate NotStarted(m: Mem, r: nat)
    requires r < |m.h.issued| && r < |m.h.acked| && r < |m.consumerDone|
  {
    m.h.issued[r] == 0 && (m.consumerDone[r] != m.active ==> m.h.acked[r] == 0)
  }

  ghost predicate ConsPcOk(c: Cfg, m: Mem, r: nat, pc: ConsPc)
    requires Shape(c, m) && r < c.ranks
  {
    match pc
    case CStart => NotStarted(m, r)
    case CTop => NotStarted(m, r)
    case CActive => NotStarted(m, r)
    case CIdle => NotStarted(m, r)
    case CJoin(ep) => NotStarted(m, r) && ep == m.active && ep > 0 && m.consumerDone[r] != ep
    case CCount(ep) =>
      NotStarted(m, r) && ep == m.active && ep > 0 && m.consumerDone[r] != ep && m.joinEpoch[r] == ep
    case CPoll(ep, n, x, b, stage) =>
      && m.h.issued[r] == 0 && InLayer(c, m, r, ep, n, x) && b == x * c.ExpertBytes()
      && (stage.PEpoch? ==> Accepted(m, x, stage.sq))
      && (stage.PExpert? ==> Accepted(m, x, stage.sq))
      && (stage.PConfirm? ==> Accepted(m, x, stage.sq))
    case CIssue(ep, n, x, b, sq, kind) =>
      && InLayer(c, m, r, ep, n, x) && b == x * c.ExpertBytes() && Accepted(m, x, sq)
      && m.h.issued[r] == kind <= c.Kinds()
    case CEvent(ep, n, x, b, sq, event) =>
      && InLayer(c, m, r, ep, n, x) && b == x * c.ExpertBytes() && Accepted(m, x, sq)
      && m.h.issued[r] == c.Kinds() && (event.EConfirm? ==> m.stream[r] == [])
    case CAck(ep, n, x, b, sq) =>
      && InLayer(c, m, r, ep, n, x) && b == (x + 1) * c.ExpertBytes() && Accepted(m, x, sq)
      && m.h.issued[r] == c.Kinds() && m.stream[r] == []
    case CBytes(ep, b) =>
      && ep == m.active && ep > 0 && m.joinEpoch[r] == ep && m.consumerDone[r] != ep
      && m.h.acked[r] == m.h.count && m.h.issued[r] == 0 && b == m.h.count * c.ExpertBytes()
    case CDone(ep) =>
      && ep == m.active && ep > 0 && m.joinEpoch[r] == ep && m.consumerDone[r] != ep
      && m.h.acked[r] == m.h.count && m.h.issued[r] == 0 && m.bytes[r] == m.h.count * c.ExpertBytes()
    case CCatch => true
    case CGone => true
  }

  ghost predicate ConsOk(c: Cfg, m: Mem, r: nat, k: Cons)
    requires Shape(c, m) && r < c.ranks
  {
    && ConsShape(c, k) && (k.pc.CStart? || k.completed == m.consumerDone[r])
    && k.last == m.ack[r] && ConsPcOk(c, m, r, k.pc)
  }

  ghost predicate Inv(c: Cfg, s: State) {
    && Shared(c, s.m)
    && |s.api| == |s.cons| == c.ranks
    && (forall r | 0 <= r < c.ranks :: ApiOk(c, s.m, r, s.api[r]))
    && (forall r | 0 <= r < c.ranks :: ConsOk(c, s.m, r, s.cons[r]))
  }

  lemma InitInv(c: Cfg, s: State)
    requires Init(c, s)
    ensures Inv(c, s)
  {
    hide ReturnOk;
    assert forall r | 0 <= r < c.ranks :: s.m.stream[r] == Ops(c, 0, 0, 0);
  }
}
