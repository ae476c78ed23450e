/**
 The poison latch in runs of the whole transport: its steps are those of the latch alone, and a rank whose call has
 thrown leaves the region poisoned, so that its later calls are refused.
 */
module TransportLatch {
  import opened TransportModel
  import PoisonLatch

  lemma LatchAtApiStep(c: Cfg, s: State, r: nat, timeout: bool, t: State)
    requires StateShape(c, s) && ApiSteps(c, s, r, timeout, t)
    ensures t.latch == s.latch || PoisonLatch.Next(s.latch, t.latch)
  {
    hide ApiAct;
  }

  lemma LatchAtThrow(c: Cfg, s: State, t: State)
    requires StateShape(c, s) && WriterThrows(c, s, t)
    ensures t.latch == s.latch || PoisonLatch.Next(s.latch, t.latch)
  {
  }

  lemma LatchAtConsStep(c: Cfg, s: State, r: nat, fault: Fault, t: State)
    requires StateShape(c, s) && ConsSteps(c, s, r, fault, t)
    ensures t.latch == s.latch || PoisonLatch.Next(s.latch, t.latch)
  {
    hide ConsAct;
  }

  lemma LatchElsewhere(c: Cfg, s: State, l: Label, t: State)
    requires StateShape(c, s) && Step(c, s, l, t)
    requires !l.ApiStep? && !l.WriterThrow? && !l.ConsStep?
    ensures t.latch == s.latch || PoisonLatch.Next(s.latch, t.latch)
  {
  }

  lemma LatchChanges(c: Cfg, s: State, l: Label, t: State)
    requires StateShape(c, s) && Step(c, s, l, t)
    ensures t.latch == s.latch || PoisonLatch.Next(s.latch, t.latch)
  {
    hide ApiAct, ConsAct;
    match l {
      case ApiStep(r, timeout) => LatchAtApiStep(c, s, r, timeout, t);
      case WriterThrow => LatchAtThrow(c, s, t);
      case ConsStep(r, fault) => LatchAtConsStep(c, s, r, fault, t);
      case _ => LatchElsewhere(c, s, l, t);
    }
  }

  lemma LatchStepMoves(c: Cfg, s: State, t: State)
    requires StateShape(c, s) && Next(c, s, t) && PoisonLatch.Inv(s.latch)
    ensures PoisonLatch.Inv(t.latch)
    ensures PoisonLatch.Rank(s.latch.word) <= PoisonLatch.Rank(t.latch.word) <= PoisonLatch.Rank(s.latch.word) + 1
  {
    var l :| Step(c, s, l, t);
    LatchChanges(c, s, l, t);
    if t.latch != s.latch {
      var step :| PoisonLatch.Enabled(s.latch, step) && t.latch == PoisonLatch.Apply(s.latch, step);
      PoisonLatch.StepPreserves(s.latch, step);
      PoisonLatch.WordAdvances(s.latch, step);
    }
  }

  lemma {:induction false} LatchKeeps(c: Cfg, run: seq<State>, i: nat)
    requires Run(c, run) && i < |run|
    ensures PoisonLatch.Inv(run[i].latch)
  {
    hide Next, StateShape;
    if i == 0 {
      PoisonLatch.InitialInv();
    } else {
      LatchKeeps(c, run, i - 1);
      assert StepAt(c, run, i - 1);
      LatchStepMoves(c, run[i - 1], run[i]);
    }
  }

  /** The poison word moves only from 0 to claimed to 1, one stage at a time. */
  lemma LatchMoves(c: Cfg, run: seq<State>, i: nat)
    requires Run(c, run) && i + 1 < |run|
    ensures PoisonLatch.Rank(run[i].latch.word) <= PoisonLatch.Rank(run[i + 1].latch.word)
                                                <= PoisonLatch.Rank(run[i].latch.word) + 1
  {
    hide Init, Next, StateShape;
    LatchKeeps(c, run, i);
    assert StepAt(c, run, i);
    LatchStepMoves(c, run[i], run[i + 1]);
  }

  /** The attempt won the claim and the diagnosis is its own. */
  predicate Names(a: PoisonLatch.Attempt, d: PoisonLatch.Diagnosis) {
    PoisonLatch.IsWinner(a) && d == PoisonLatch.Diagnosis(a.code, a.rank, PoisonLatch.Truncate(a.message))
  }

  /** In every run of the transport, all complete poison reports of all threads name one and the same failure. */
  lemma ReportsAgree(c: Cfg, run: seq<State>, i: nat, a: nat, b: nat)
    requires Run(c, run) && i < |run|
    requires a < |run[i].latch.readers| && b < |run[i].latch.readers|
    requires run[i].latch.readers[a].Reported? && run[i].latch.readers[b].Reported?
    ensures run[i].latch.readers[a].diagnosis == run[i].latch.readers[b].diagnosis
    ensures exists w | 0 <= w < |run[i].latch.attempts| ::
      Names(run[i].latch.attempts[w], run[i].latch.readers[a].diagnosis)
  {
    hide Init, Next, StateShape;
    LatchKeeps(c, run, i);
    var latch := run[i].latch;
    assert PoisonLatch.ReaderOk(latch, latch.readers[a]) && PoisonLatch.ReaderOk(latch, latch.readers[b]);
    var w :| 0 <= w < |latch.attempts| && PoisonLatch.IsWinner(latch.attempts[w]);
    assert PoisonLatch.CellsOf(latch, latch.attempts[w]);
    PoisonLatch.BitsRoundTrip(latch.attempts[w].rank);
    assert Names(latch.attempts[w], latch.readers[a].diagnosis);
  }

  // ----- a failed call leaves the region poisoned

  /** Once the word is non-zero it stays so. */
  lemma PoisonStays(c: Cfg, s: State, l: Label, t: State)
    requires StateShape(c, s) && Step(c, s, l, t) && Poisoned(s)
    ensures Poisoned(t)
  {
    hide StateShape, Step;
    LatchChanges(c, s, l, t);
    if t.latch != s.latch {
      var step :| PoisonLatch.Enabled(s.latch, step) && t.latch == PoisonLatch.Apply(s.latch, step);
    }
  }

  /** A publication that has returned, won or lost, leaves the word non-zero. */
  lemma EndedIsPoisoned(latch: PoisonLatch.Latch, a: nat)
    requires PoisonLatch.Inv(latch) && a < |latch.attempts| && PoisonLatch.Ended(latch.attempts[a])
    ensures !latch.word.Healthy?
  {
    if latch.attempts[a].stage.Published? {
      assert PoisonLatch.IsWinner(latch.attempts[a]);
    }
  }

  /** A call that fails without publishing has seen a non-zero word. */
  lemma FailsOnlyPoisoned(c: Cfg, m: Mem, poisoned: bool, r: nat, pc: Api, timeout: bool)
    requires Shape(c, m) && r < c.ranks && ApiShape(c, pc) && !Resting(pc)
    ensures var act := ApiAct(c, m, poisoned, r, pc, timeout); act.pc.Failed? && act.poison.None? ==> poisoned
  {
  }

  /** A rank is past a failed call only in a poisoned region. */
  ghost predicate FailuresKnown(s: State) {
    forall r | 0 <= r < |s.api| && s.api[r].Failed? :: Poisoned(s)
  }

  lemma KnownAtApiStep(c: Cfg, s: State, r: nat, timeout: bool, t: State)
    requires StateShape(c, s) && ApiSteps(c, s, r, timeout, t) && FailuresKnown(s) && (Poisoned(s) ==> Poisoned(t))
    ensures FailuresKnown(t)
  {
    hide ApiAct;
    FailsOnlyPoisoned(c, s.m, Poisoned(s), r, s.api[r], timeout);
  }

  lemma KnownAtFailure(c: Cfg, s: State, r: nat, t: State)
    requires StateShape(c, s) && FailSteps(c, s, r, t) && PoisonLatch.Inv(s.latch)
    ensures FailuresKnown(t)
  {
    EndedIsPoisoned(s.latch, s.api[r].attempt);
  }

  lemma KnownElsewhere(c: Cfg, s: State, l: Label, t: State)
    requires StateShape(c, s) && Step(c, s, l, t) && FailuresKnown(s) && (Poisoned(s) ==> Poisoned(t))
    requires !l.ApiStep? && !l.FailEnds?
    ensures FailuresKnown(t)
  {
  }

  lemma KnownStays(c: Cfg, s: State, t: State)
    requires StateShape(c, s) && Next(c, s, t) && PoisonLatch.Inv(s.latch) && FailuresKnown(s)
    ensures FailuresKnown(t)
  {
    hide StateShape, FailuresKnown, PoisonLatch.Inv, ApiSteps, FailSteps;
    var l :| Step(c, s, l, t);
    if Poisoned(s) {
      PoisonStays(c, s, l, t);
    }
    match l {
      case ApiStep(r, timeout) => KnownAtApiStep(c, s, r, timeout, t);
      case FailEnds(r) => KnownAtFailure(c, s, r, t);
      case _ => KnownElsewhere(c, s, l, t);
    }
  }

  /** In every run, a rank whose call has thrown after a failure works in a poisoned region. */
  lemma {:induction false} FailuresStayKnown(c: Cfg, run: seq<State>, i: nat)
    requires Run(c, run) && i < |run|
    ensures FailuresKnown(run[i])
  {
    hide Next, PoisonLatch.Inv;
    if i > 0 {
      FailuresStayKnown(c, run, i - 1);
      LatchKeeps(c, run, i - 1);
      assert StepAt(c, run, i - 1);
      KnownStays(c, run[i - 1], run[i]);
    }
  }

  /** After a failed call every further call but close is refused and changes nothing. */
  lemma CallsAreRefused(c: Cfg, run: seq<State>, i: nat, l: Label, t: State)
    requires Run(c, run) && i < |run| && (l.CallJoin? || l.CallProducer? || l.CallWait? || l.CallClose?)
    requires CallSteps(c, run[i], l, t) && run[i].api[CallerOf(l)].Failed?
    ensures t == run[i].(api := run[i].api[CallerOf(l) := if l.CallClose? then InClose(CloseActive) else Failed])
    ensures !l.CallClose? ==> t == run[i]
  {
    hide Init, Next;
    FailuresStayKnown(c, run, i);
    assert run[i].api[CallerOf(l) := Failed] == run[i].api;
  }
}
