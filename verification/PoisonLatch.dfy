/**
 The poison latch of the shared control region: one word moved by compare-and-swap, three diagnostic
 cells written by the claim winner, any number of publishers and any number of readers, each advancing
 one shared access at a time.
 */
module PoisonLatch {

  const WORD_MODULUS: nat := 0x1_0000_0000_0000_0000
  const MESSAGE_BYTES: nat := 256

  /** 0, UINT64_MAX and 1 in the poison word. */
  datatype Word = Healthy | Claimed | Poisoned

  datatype PublishStage = Swap | StoreCode | StoreRank | StoreText | StorePoisoned | Published | LostRace

  /** One execution of publish_poison. */
  datatype Attempt = Attempt(code: nat, rank: int, message: string, stage: PublishStage)

  datatype Diagnosis = Diagnosis(code: nat, rank: int, text: string)

  /** One execution of poison_message, by a caller that saw a non-zero word. */
  datatype Reader =
    | ReadWord
    | ReadCode
    | ReadRank(code: nat)
    | ReadText(code: nat, rank: int)
    | Reported(diagnosis: Diagnosis)
    | ClaimIncomplete

  datatype Latch = Latch(word: Word, code: nat, rankBits: nat, text: string,
                         attempts: seq<Attempt>, readers: seq<Reader>)

  datatype Step =
    | Spawn(code: nat, rank: int, message: string)
    | Publish(attempt: nat)
    | StartReader
    | Read(reader: nat, deadlinePassed: bool)

  /** static_cast of a signed value to 64 unsigned bits, and back. */
  function SignedToBits(value: int): nat {
    value % WORD_MODULUS
  }

  function BitsToSigned(bits: nat): int {
    if bits < WORD_MODULUS / 2 then bits else bits - WORD_MODULUS
  }

  lemma BitsRoundTrip(value: int)
    requires -(WORD_MODULUS / 2) <= value < WORD_MODULUS / 2
    ensures BitsToSigned(SignedToBits(value)) == value
  {
    if value < 0 {
      assert SignedToBits(value) == value + WORD_MODULUS;
    }
  }

  /** snprintf into the fixed message buffer keeps room for the terminator. */
  function Truncate(message: string): string {
    if |message| < MESSAGE_BYTES then message else message[..MESSAGE_BYTES - 1]
  }

  predicate RankInRange(rank: int) {
    -0x8000_0000 <= rank < 0x8000_0000
  }

  const INITIAL: Latch := Latch(Healthy, 0, SignedToBits(-1), "", [], [])

  function PublishStep(latch: Latch, i: nat): Latch
    requires i < |latch.attempts|
  {
    var a := latch.attempts[i];
    match a.stage
    case Swap =>
      if latch.word.Healthy?
      then latch.(word := Claimed, attempts := latch.attempts[i := a.(stage := StoreCode)])
      else latch.(attempts := latch.attempts[i := a.(stage := LostRace)])
    case StoreCode =>
      latch.(code := a.code, attempts := latch.attempts[i := a.(stage := StoreRank)])
    case StoreRank =>
      latch.(rankBits := SignedToBits(a.rank), attempts := latch.attempts[i := a.(stage := StoreText)])
    case StoreText =>
      latch.(text := Truncate(a.message), attempts := latch.attempts[i := a.(stage := StorePoisoned)])
    case StorePoisoned =>
      latch.(word := Poisoned, attempts := latch.attempts[i := a.(stage := Published)])
    case Published => latch
    case LostRace => latch
  }

  function ReadStep(latch: Latch, i: nat, deadlinePassed: bool): Latch
    requires i < |latch.readers|
  {
    var next :=
      match latch.readers[i]
      case ReadWord =>
        if latch.word.Claimed? then (if deadlinePassed then ClaimIncomplete else ReadWord) else ReadCode
      case ReadCode => ReadRank(latch.code)
      case ReadRank(code) => ReadText(code, BitsToSigned(latch.rankBits))
      case ReadText(code, rank) => Reported(Diagnosis(code, rank, latch.text))
      case Reported(_) => latch.readers[i]
      case ClaimIncomplete => ClaimIncomplete;
    latch.(readers := latch.readers[i := next])
  }

  predicate Enabled(latch: Latch, step: Step) {
    match step
    case Spawn(_, rank, _) => RankInRange(rank)
    case Publish(i) => i < |latch.attempts|
    case StartReader => !latch.word.Healthy?
    case Read(i, _) => i < |latch.readers|
  }

  function Apply(latch: Latch, step: Step): Latch
    requires Enabled(latch, step)
  {
    match step
    case Spawn(code, rank, message) =>
      latch.(attempts := latch.attempts + [Attempt(code, rank, message, Swap)])
    case Publish(i) => PublishStep(latch, i)
    case StartReader => latch.(readers := latch.readers + [ReadWord])
    case Read(i, deadlinePassed) => ReadStep(latch, i, deadlinePassed)
  }

  // ----- the invariant of every run

  /** The attempt that won the compare-and-swap. */
  predicate IsWinner(a: Attempt) {
    !a.stage.Swap? && !a.stage.LostRace?
  }

  ghost predicate OneWinner(latch: Latch) {
    && (latch.word.Healthy? <==> forall i | 0 <= i < |latch.attempts| :: !IsWinner(latch.attempts[i]))
    && (forall i, j | 0 <= i < j < |latch.attempts| :: !(IsWinner(latch.attempts[i]) && IsWinner(latch.attempts[j])))
  }

  /** What the cells hold when the winner stands at its stage. */
  predicate CellsOf(latch: Latch, a: Attempt) {
    && (a.stage.StoreRank? || a.stage.StoreText? || a.stage.StorePoisoned? || a.stage.Published? ==>
      latch.code == a.code)
    && (a.stage.StoreText? || a.stage.StorePoisoned? || a.stage.Published? ==>
      latch.rankBits == SignedToBits(a.rank))
    && (a.stage.StorePoisoned? || a.stage.Published? ==> latch.text == Truncate(a.message))
    && (a.stage.Published? <==> latch.word.Poisoned?)
  }

  /** A reader past the word check works on the published winner's cells. */
  predicate ReaderOk(latch: Latch, reader: Reader) {
    match reader
    case ReadWord => !latch.word.Healthy?
    case ReadCode => latch.word.Poisoned?
    case ReadRank(code) => latch.word.Poisoned? && code == latch.code
    case ReadText(code, rank) =>
      latch.word.Poisoned? && code == latch.code && rank == BitsToSigned(latch.rankBits)
    case Reported(d) =>
      latch.word.Poisoned? && d == Diagnosis(latch.code, BitsToSigned(latch.rankBits), latch.text)
    case ClaimIncomplete => !latch.word.Healthy?
  }

  ghost predicate Inv(latch: Latch) {
    && OneWinner(latch)
    && (forall i | 0 <= i < |latch.attempts| ::
      RankInRange(latch.attempts[i].rank)
      && (IsWinner(latch.attempts[i]) ==> CellsOf(latch, latch.attempts[i])))
    && (forall i | 0 <= i < |latch.attempts| && latch.attempts[i].stage.LostRace? :: !latch.word.Healthy?)
    && (forall i | 0 <= i < |latch.readers| :: ReaderOk(latch, latch.readers[i]))
  }

  /** publish_poison has returned. */
  predicate Ended(a: Attempt) {
    a.stage.Published? || a.stage.LostRace?
  }

  lemma InitialInv()
    ensures Inv(INITIAL)
  {
  }

  lemma PublishPreserves(latch: Latch, i: nat)
    requires Inv(latch) && i < |latch.attempts|
    ensures Inv(PublishStep(latch, i))
  {
    var a, next := latch.attempts[i], PublishStep(latch, i);
    if a.stage.Swap? && latch.word.Healthy? {
      assert IsWinner(next.attempts[i]);
    } else if IsWinner(a) {
      assert IsWinner(next.attempts[i]);
    } else {
      assert !IsWinner(next.attempts[i]);
      assert forall j | 0 <= j < |latch.attempts| && j != i :: next.attempts[j] == latch.attempts[j];
    }
  }

  lemma StepPreserves(latch: Latch, step: Step)
    requires Inv(latch) && Enabled(latch, step)
    ensures Inv(Apply(latch, step))
  {
    match step {
      case Spawn(code, rank, message) =>
        var next := Apply(latch, step);
        assert forall j | 0 <= j < |latch.attempts| :: next.attempts[j] == latch.attempts[j];
      case Publish(i) => PublishPreserves(latch, i);
      case StartReader =>
      case Read(i, deadlinePassed) =>
    }
  }

  ghost predicate Next(latch: Latch, later: Latch) {
    exists step :: Enabled(latch, step) && later == Apply(latch, step)
  }

  ghost predicate StepAt(run: seq<Latch>, k: nat)
    requires k + 1 < |run|
  {
    Next(run[k], run[k + 1])
  }

  /** A run is a sequence of latches, each obtained from the one before by some step. */
  ghost predicate Run(run: seq<Latch>) {
    && |run| > 0
    && run[0] == INITIAL
    && forall k | 0 <= k < |run| - 1 :: StepAt(run, k)
  }

  lemma {:induction false} RunInv(run: seq<Latch>, k: nat)
    requires Run(run) && k < |run|
    ensures Inv(run[k])
  {
    if k == 0 {
      InitialInv();
    } else {
      RunInv(run, k - 1);
      assert StepAt(run, k - 1);
      var step :| Enabled(run[k - 1], step) && run[k] == Apply(run[k - 1], step);
      StepPreserves(run[k - 1], step);
    }
  }

  /** 0 for healthy, 1 for claimed, 2 for poisoned: the order in which the word may move. */
  function Rank(word: Word): nat {
    match word case Healthy => 0 case Claimed => 1 case Poisoned => 2
  }

  /** The word moves only from 0 to claimed to 1, one stage at a time, and a step that leaves a winner in
      place keeps that attempt's code, rank and message. */
  lemma WordAdvances(latch: Latch, step: Step)
    requires Inv(latch) && Enabled(latch, step)
    ensures Rank(latch.word) <= Rank(Apply(latch, step).word) <= Rank(latch.word) + 1
    ensures forall i | 0 <= i < |latch.attempts| && IsWinner(latch.attempts[i]) ::
      var later := Apply(latch, step).attempts;
      i < |later| && IsWinner(later[i]) && later[i].(stage := Swap) == latch.attempts[i].(stage := Swap)
  {
    if step.Publish? {
      var a := latch.attempts[step.attempt];
      if IsWinner(a) {
        assert CellsOf(latch, a);
      }
    }
  }

  /** Every report any reader makes in any run names the code, the rank and the (truncated) message of the one
      attempt that won the claim. */
  lemma ReportsAreTheWinners(run: seq<Latch>, k: nat, reader: nat) returns (winner: nat)
    requires Run(run) && k < |run| && reader < |run[k].readers| && run[k].readers[reader].Reported?
    ensures winner < |run[k].attempts| && IsWinner(run[k].attempts[winner])
    ensures var w := run[k].attempts[winner];
      run[k].readers[reader].diagnosis == Diagnosis(w.code, w.rank, Truncate(w.message))
    ensures forall i | 0 <= i < |run[k].attempts| && IsWinner(run[k].attempts[i]) :: i == winner
  {
    RunInv(run, k);
    var latch := run[k];
    assert ReaderOk(latch, latch.readers[reader]);
    winner :| 0 <= winner < |latch.attempts| && IsWinner(latch.attempts[winner]);
    var w := latch.attempts[winner];
    assert CellsOf(latch, w) && w.stage.Published?;
    BitsRoundTrip(w.rank);
  }
}
