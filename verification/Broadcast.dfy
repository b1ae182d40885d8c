/**
  One writer and a fixed number of readers sharing one message through three
  counting semaphores. Every access to a semaphore or to the shared message is
  one step; the message is torn while the writer scans a new line into it.
 */
module Broadcast {
  import opened Counting
  import Runs

  type Message = string

  /** N_READER and N_STEP. */
  datatype Config = Config(readers: nat, rounds: nat)

  datatype WriterPc = WaitReaders | OpenBarrier | Scan | Scanning | Publish | Drain | Killed

  datatype ReaderPc = Barrier | WaitMessage | Reading | Report

  datatype Read = Read(reader: nat, message: Message)

  /** What happened to one message: its text, and the reads of it in order. */
  datatype Round = Round(message: Message, log: seq<Read>)

  datatype State = State(
    writer: WriterPc, step: nat, readers: seq<ReaderPc>,
    sem0: nat, sem1: nat, sem2: nat, message: Message, history: seq<Round>)

  datatype Action =
    | TakeReaders
    | Open
    | BeginScan(torn: Message)
    | EndScan(line: Message)
    | Post
    | Finish
    | Pass(r: nat)
    | Acquire(r: nat)
    | ReadMessage(r: nat)
    | Done(r: nat)

  function Initial(c: Config, garbage: Message): State {
    State(if c.rounds == 0 then Drain else WaitReaders, 0, seq(c.readers, i => Barrier), c.readers, 0, 0, garbage, [])
  }

  predicate Enabled(c: Config, s: State, a: Action) {
    s.writer != Killed &&
    match a
    case TakeReaders => s.writer == WaitReaders && s.sem0 >= c.readers
    case Open => s.writer == OpenBarrier
    case BeginScan(_) => s.writer == Scan
    case EndScan(_) => s.writer == Scanning
    case Post => s.writer == Publish
    case Finish => s.writer == Drain && s.sem0 >= c.readers
    case Pass(r) => r < |s.readers| && s.readers[r] == Barrier && s.sem2 > 0
    case Acquire(r) => r < |s.readers| && s.readers[r] == WaitMessage && s.sem1 > 0
    case ReadMessage(r) => r < |s.readers| && s.readers[r] == Reading
    case Done(r) => r < |s.readers| && s.readers[r] == Report
  }

  /** A read belongs to the newest message. */
  function Logged(history: seq<Round>, read: Read): seq<Round> {
    if history == [] then [] else
      var last := history[|history| - 1];
      history[|history| - 1 := last.(log := last.log + [read])]
  }

  function Step(c: Config, s: State, a: Action): State
    requires Enabled(c, s, a)
  {
    match a
    case TakeReaders => s.(writer := OpenBarrier, sem0 := s.sem0 - c.readers)
    case Open => s.(writer := Scan, sem2 := s.sem2 + c.readers)
    case BeginScan(torn) => s.(writer := Scanning, message := torn)
    case EndScan(line) => s.(writer := Publish, message := line, history := s.history + [Round(line, [])])
    case Post =>
      s.(writer := if s.step + 1 < c.rounds then WaitReaders else Drain, step := s.step + 1, sem1 := s.sem1 + c.readers)
    case Finish => s.(writer := Killed, sem0 := s.sem0 - c.readers)
    case Pass(r) => s.(readers := s.readers[r := WaitMessage], sem2 := s.sem2 - 1)
    case Acquire(r) => s.(readers := s.readers[r := Reading], sem1 := s.sem1 - 1)
    case ReadMessage(r) =>
      s.(readers := s.readers[r := Report], history := Logged(s.history, Read(r, s.message)))
    case Done(r) => s.(readers := s.readers[r := Barrier], sem0 := s.sem0 + 1)
  }

  ghost predicate Next(c: Config, s: State, t: State) {
    exists a :: Enabled(c, s, a) && t == Step(c, s, a)
  }

  ghost function Program(c: Config): Runs.System<State> {
    Runs.System(s => exists garbage :: s == Initial(c, garbage), (s, t) => Next(c, s, t))
  }

  // ---------------------------------------------------------------- invariant

  function Inside(pc: ReaderPc): nat { if pc == Reading then 1 else 0 }

  function Waiting(pc: ReaderPc): nat { if pc == WaitMessage then 1 else 0 }

  function Reporting(pc: ReaderPc): nat { if pc == Report then 1 else 0 }

  /** The writer holds the N tokens of the round. */
  predicate Owns(pc: WriterPc) {
    pc == OpenBarrier || pc == Scan || pc == Scanning || pc == Publish || pc == Killed
  }

  /** sem2 was opened for a message whose sem1 tokens are not yet posted. */
  predicate Preparing(pc: WriterPc) { pc == Scan || pc == Scanning || pc == Publish }

  /** Every token is on sem0, on sem1, with an active reader, or in the writer's hands. */
  predicate TokenLaw(c: Config, s: State) {
    s.sem0 + s.sem1 + Sum(s.readers, Inside) + Sum(s.readers, Reporting) + (if Owns(s.writer) then c.readers else 0) == c.readers
  }

  /** Readers let through the barrier, and those that still may pass, match the messages to hand out. */
  predicate BarrierLaw(c: Config, s: State) {
    s.sem2 + Sum(s.readers, Waiting) == s.sem1 + (if Preparing(s.writer) then c.readers else 0)
  }

  predicate StepLaw(c: Config, s: State) {
    && (if s.writer == Drain || s.writer == Killed then s.step == c.rounds else s.step < c.rounds)
    && |s.history| == s.step + (if s.writer == Publish then 1 else 0)
  }

  predicate RoundOk(c: Config, round: Round) {
    forall i :: 0 <= i < |round.log| ==> round.log[i].message == round.message && round.log[i].reader < c.readers
  }

  /** Reads of the newest message so far. */
  function ReadsSoFar(c: Config, s: State): nat {
    if s.writer == Publish then 0
    else if Owns(s.writer) then c.readers
    else s.sem0 + Sum(s.readers, Reporting)
  }

  predicate HistoryLaw(c: Config, s: State) {
    && (forall k :: 0 <= k < |s.history| ==> RoundOk(c, s.history[k]))
    && (forall k :: 0 <= k < |s.history| - 1 ==> |s.history[k].log| == c.readers)
    && (s.history != [] ==>
          var last := s.history[|s.history| - 1];
          && |last.log| == ReadsSoFar(c, s)
          && (s.writer in {WaitReaders, Drain, Publish} ==> s.message == last.message))
    && (s.history == [] ==> ReadsSoFar(c, s) == c.readers)
  }

  predicate Inv(c: Config, s: State) {
    && |s.readers| == c.readers > 0
    && TokenLaw(c, s) && BarrierLaw(c, s) && StepLaw(c, s) && HistoryLaw(c, s)
  }

  lemma InitialInv(c: Config, garbage: Message)
    requires c.readers > 0
    ensures Inv(c, Initial(c, garbage))
  {
    var s := Initial(c, garbage);
    SumConstant(s.readers, Inside, 0);
    SumConstant(s.readers, Waiting, 0);
    SumConstant(s.readers, Reporting, 0);
  }

  predicate ByReader(a: Action) { a.Pass? || a.Acquire? || a.ReadMessage? || a.Done? }

  lemma WriterTokens(c: Config, s: State, a: Action)
    requires Enabled(c, s, a) && !ByReader(a) && TokenLaw(c, s) && BarrierLaw(c, s)
    ensures TokenLaw(c, Step(c, s, a)) && BarrierLaw(c, Step(c, s, a))
  {
    var t := Step(c, s, a);
    assert t.readers == s.readers;
  }

  lemma WriterHistory(c: Config, s: State, a: Action)
    requires Enabled(c, s, a) && !ByReader(a) && TokenLaw(c, s) && StepLaw(c, s) && HistoryLaw(c, s)
    ensures StepLaw(c, Step(c, s, a)) && HistoryLaw(c, Step(c, s, a))
  {
    var t := Step(c, s, a);
    assert t.readers == s.readers;
  }

  /** One reader's move: what it changes of the three counts goes to or comes from the semaphores. */
  lemma ReaderTokens(c: Config, s: State, t: State, r: nat)
    requires TokenLaw(c, s) && BarrierLaw(c, s) && r < |s.readers| == |t.readers| && t.readers == s.readers[r := t.readers[r]]
    requires t.writer == s.writer
    requires t.sem0 + t.sem1 + Inside(t.readers[r]) + Reporting(t.readers[r])
          == s.sem0 + s.sem1 + Inside(s.readers[r]) + Reporting(s.readers[r])
    requires t.sem2 + Waiting(t.readers[r]) + s.sem1 == s.sem2 + Waiting(s.readers[r]) + t.sem1
    ensures TokenLaw(c, t) && BarrierLaw(c, t)
    ensures Sum(t.readers, Reporting) + Reporting(s.readers[r]) == Sum(s.readers, Reporting) + Reporting(t.readers[r])
  {
    SumUpdate(s.readers, r, t.readers[r], Inside);
    SumUpdate(s.readers, r, t.readers[r], Waiting);
    SumUpdate(s.readers, r, t.readers[r], Reporting);
  }

  lemma HistoryStays(c: Config, s: State, t: State)
    requires HistoryLaw(c, s) && t.history == s.history && t.message == s.message && t.writer == s.writer
    requires ReadsSoFar(c, t) == ReadsSoFar(c, s)
    ensures HistoryLaw(c, t)
  {
  }

  lemma PassInv(c: Config, s: State, r: nat)
    requires Inv(c, s) && Enabled(c, s, Pass(r))
    ensures Inv(c, Step(c, s, Pass(r)))
  {
    var t := Step(c, s, Pass(r));
    ReaderTokens(c, s, t, r);
    HistoryStays(c, s, t);
  }

  lemma AcquireInv(c: Config, s: State, r: nat)
    requires Inv(c, s) && Enabled(c, s, Acquire(r))
    ensures Inv(c, Step(c, s, Acquire(r)))
  {
    var t := Step(c, s, Acquire(r));
    ReaderTokens(c, s, t, r);
    HistoryStays(c, s, t);
  }

  lemma DoneInv(c: Config, s: State, r: nat)
    requires Inv(c, s) && Enabled(c, s, Done(r))
    ensures Inv(c, Step(c, s, Done(r)))
  {
    var t := Step(c, s, Done(r));
    ReaderTokens(c, s, t, r);
    SumAtLeast(s.readers, r, Reporting);
    HistoryStays(c, s, t);
  }

  /** A reader inside means that the writer holds no tokens, and that there is a message. */
  lemma ReaderInside(c: Config, s: State, r: nat)
    requires Inv(c, s) && r < |s.readers| && s.readers[r] == Reading
    ensures !Owns(s.writer) && s.history != []
  {
    SumAtLeast(s.readers, r, Inside);
  }

  lemma HistoryRead(c: Config, s: State, t: State, r: nat)
    requires HistoryLaw(c, s) && s.history != [] && !Owns(s.writer) && r < c.readers
    requires t.history == Logged(s.history, Read(r, s.message)) && t.message == s.message && t.writer == s.writer
    requires ReadsSoFar(c, t) == ReadsSoFar(c, s) + 1
    ensures |t.history| == |s.history| && HistoryLaw(c, t)
  {
    var n := |s.history| - 1;
    assert RoundOk(c, s.history[n]);
    assert t.history[n].log == s.history[n].log + [Read(r, s.message)];
    assert RoundOk(c, t.history[n]);
  }

  lemma ReadInv(c: Config, s: State, r: nat)
    requires Inv(c, s) && Enabled(c, s, ReadMessage(r))
    ensures Inv(c, Step(c, s, ReadMessage(r)))
  {
    var t := Step(c, s, ReadMessage(r));
    ReaderInside(c, s, r);
    ReaderTokens(c, s, t, r);
    HistoryRead(c, s, t, r);
  }

  lemma StepInv(c: Config, s: State, a: Action)
    requires Inv(c, s) && Enabled(c, s, a)
    ensures Inv(c, Step(c, s, a))
  {
    match a
    case Pass(r) => PassInv(c, s, r);
    case Acquire(r) => AcquireInv(c, s, r);
    case ReadMessage(r) => ReadInv(c, s, r);
    case Done(r) => DoneInv(c, s, r);
    case _ => WriterTokens(c, s, a); WriterHistory(c, s, a);
  }

  lemma InvHolds(c: Config)
    requires c.readers > 0
    ensures Runs.Inductive(Program(c), s => Inv(c, s))
  {
    forall s: State, garbage: Message | s == Initial(c, garbage) ensures Inv(c, s) {
      InitialInv(c, garbage);
    }
    forall s: State, t: State | Inv(c, s) && Next(c, s, t) ensures Inv(c, t) {
      var a :| Enabled(c, s, a) && t == Step(c, s, a);
      StepInv(c, s, a);
    }
  }

  // ------------------------------------------------------------------- safety

  /** No reader looks at the message while the writer changes it. */
  predicate Exclusive(s: State) {
    s.writer in {Scan, Scanning, Publish} ==> forall r :: 0 <= r < |s.readers| ==> s.readers[r] != Reading
  }

  /** Every message but the newest was read exactly N times, and never a torn or an older text. */
  predicate CompleteRounds(c: Config, s: State) {
    && (forall k :: 0 <= k < |s.history| ==> RoundOk(c, s.history[k]) && |s.history[k].log| <= c.readers)
    && (forall k :: 0 <= k < |s.history| - 1 ==> |s.history[k].log| == c.readers)
    && (s.writer in {OpenBarrier, Scan, Scanning} ==> forall k :: 0 <= k < |s.history| ==> |s.history[k].log| == c.readers)
  }

  lemma InvIsSafe(c: Config, s: State)
    requires Inv(c, s)
    ensures Exclusive(s) && CompleteRounds(c, s)
    ensures s.writer == Killed ==>
      && |s.history| == c.rounds
      && (forall k :: 0 <= k < |s.history| ==> |s.history[k].log| == c.readers)
      && s.readers == seq(c.readers, i => Barrier)
  {
    forall r | 0 <= r < |s.readers| && Owns(s.writer) ensures !s.readers[r].Reading? && !s.readers[r].Report? {
      SumAtLeast(s.readers, r, Inside);
      SumAtLeast(s.readers, r, Reporting);
    }
    if s.writer == Killed {
      forall r | 0 <= r < |s.readers| ensures s.readers[r] == Barrier {
        SumAtLeast(s.readers, r, Waiting);
      }
    }
  }

  lemma BroadcastSafety(c: Config, run: seq<State>)
    requires c.readers > 0 && Runs.IsRun(Program(c), run)
    ensures forall i :: 0 <= i < |run| ==> Exclusive(run[i]) && CompleteRounds(c, run[i])
    ensures forall i :: 0 <= i < |run| && run[i].writer == Killed ==>
      |run[i].history| == c.rounds && forall k :: 0 <= k < c.rounds ==> |run[i].history[k].log| == c.readers
  {
    InvHolds(c);
    Runs.Invariant(Program(c), s => Inv(c, s), run);
    forall i | 0 <= i < |run|
      ensures Exclusive(run[i]) && CompleteRounds(c, run[i])
      ensures run[i].writer == Killed ==>
        |run[i].history| == c.rounds && forall k :: 0 <= k < c.rounds ==> |run[i].history[k].log| == c.readers
    {
      InvIsSafe(c, run[i]);
    }
  }

  // ----------------------------------------------------------------- liveness

  ghost predicate CanMove(c: Config, s: State) { exists a :: Enabled(c, s, a) }

  lemma NeverStuck(c: Config, s: State)
    requires Inv(c, s) && s.writer != Killed
    ensures CanMove(c, s)
  {
    if
    case s.writer == OpenBarrier => assert Enabled(c, s, Open);
    case s.writer == Scan => assert Enabled(c, s, BeginScan(""));
    case s.writer == Scanning => assert Enabled(c, s, EndScan(""));
    case s.writer == Publish => assert Enabled(c, s, Post);
    case s.writer == WaitReaders && s.sem0 >= c.readers => assert Enabled(c, s, TakeReaders);
    case s.writer == Drain && s.sem0 >= c.readers => assert Enabled(c, s, Finish);
    case !Owns(s.writer) && s.sem0 < c.readers => SomeReaderMoves(c, s);
  }

  lemma SomeReaderMoves(c: Config, s: State)
    requires Inv(c, s) && !Owns(s.writer) && s.sem0 < c.readers
    ensures CanMove(c, s)
  {
    if Sum(s.readers, Inside) > 0 {
      var r := SumWitness(s.readers, Inside);
      assert Enabled(c, s, ReadMessage(r));
    } else if Sum(s.readers, Reporting) > 0 {
      var r := SumWitness(s.readers, Reporting);
      assert Enabled(c, s, Done(r));
    } else if Sum(s.readers, Waiting) > 0 {
      var r := SumWitness(s.readers, Waiting);
      assert Enabled(c, s, Acquire(r));
    } else {
      forall r | 0 <= r < |s.readers| ensures s.readers[r] == Barrier {
        SumAtLeast(s.readers, r, Inside);
        SumAtLeast(s.readers, r, Reporting);
        SumAtLeast(s.readers, r, Waiting);
      }
      assert Enabled(c, s, Pass(0));
    }
  }

  function ReaderSteps(pc: ReaderPc): nat {
    match pc case Barrier => 0 case WaitMessage => 3 case Reading => 2 case Report => 1
  }

  function WriterSteps(pc: WriterPc): nat {
    match pc
    case WaitReaders => 5 case OpenBarrier => 4 case Scan => 3 case Scanning => 2 case Publish => 1
    case Drain => 1 case Killed => 0
  }

  function Looping(pc: WriterPc): bool { pc != Drain && pc != Killed }

  /** Rounds whose barrier tokens are still to come. */
  function Unopened(c: Config, s: State): nat
    requires StepLaw(c, s)
  {
    if s.writer == WaitReaders || s.writer == OpenBarrier then c.rounds - s.step
    else if Looping(s.writer) then c.rounds - s.step - 1
    else 0
  }

  /** The number of steps that remain: the writer's own, and four per barrier token. */
  function Measure(c: Config, s: State): nat {
    if !StepLaw(c, s) then 0 else
      WriterSteps(s.writer)
      + (if Looping(s.writer) then 5 * (c.rounds - s.step - 1) + 1 else 0)
      + 4 * (c.readers * Unopened(c, s))
      + 4 * s.sem2 + Sum(s.readers, ReaderSteps)
  }

  lemma ReaderMeasureDrops(c: Config, s: State, a: Action)
    requires Inv(c, s) && Enabled(c, s, a) && ByReader(a)
    ensures Measure(c, Step(c, s, a)) + 1 == Measure(c, s)
  {
    var t := Step(c, s, a);
    SumUpdate(s.readers, a.r, t.readers[a.r], ReaderSteps);
    assert StepLaw(c, t) && Unopened(c, t) == Unopened(c, s);
  }

  lemma WriterMeasureDrops(c: Config, s: State, a: Action)
    requires Inv(c, s) && Enabled(c, s, a) && !ByReader(a)
    ensures Measure(c, Step(c, s, a)) + 1 == Measure(c, s)
  {
    var t := Step(c, s, a);
    assert StepLaw(c, t);
    if a == Open {
      OneLess(c.readers, Unopened(c, s));
    } else {
      assert Unopened(c, t) == Unopened(c, s);
    }
  }

  lemma OneLess(n: nat, k: nat)
    requires k > 0
    ensures n * k == n * (k - 1) + n
  {
  }

  lemma MeasureDrops(c: Config, s: State, a: Action)
    requires Inv(c, s) && Enabled(c, s, a)
    ensures Measure(c, Step(c, s, a)) + 1 == Measure(c, s)
  {
    if ByReader(a) { ReaderMeasureDrops(c, s, a); } else { WriterMeasureDrops(c, s, a); }
  }

  /**
    Every run is finite, and a run that ends with the readers killed took exactly
    4 steps per read, 5 steps per message and the final drain. No other state is an end.
   */
  lemma BroadcastLiveness(c: Config, run: seq<State>)
    requires c.readers > 0 && Runs.IsRun(Program(c), run)
    ensures |run| - 1 <= 4 * (c.readers * c.rounds) + 5 * c.rounds + 1
    ensures run[|run| - 1].writer == Killed <==> |run| - 1 == 4 * (c.readers * c.rounds) + 5 * c.rounds + 1
    ensures run[|run| - 1].writer != Killed ==> CanMove(c, run[|run| - 1])
  {
    InvHolds(c);
    Runs.Invariant(Program(c), s => Inv(c, s), run);
    forall k | 0 <= k < |run| - 1 ensures Measure(c, run[k + 1]) + 1 == Measure(c, run[k]) {
      assert Next(c, run[k], run[k + 1]);
      var a :| Enabled(c, run[k], a) && run[k + 1] == Step(c, run[k], a);
      MeasureDrops(c, run[k], a);
    }
    Runs.ExactLength(Program(c), s => Measure(c, s), run, |run| - 1);
    var garbage :| run[0] == Initial(c, garbage);
    SumConstant(run[0].readers, ReaderSteps, 0);
    var last := run[|run| - 1];
    assert Inv(c, last);
    if last.writer == Killed {
      BarrierAtEnd(c, last);
    } else {
      NeverStuck(c, last);
      var a :| Enabled(c, last, a);
      MeasureDrops(c, last, a);
    }
  }

  lemma BarrierAtEnd(c: Config, s: State)
    requires Inv(c, s) && s.writer == Killed
    ensures Measure(c, s) == 0
  {
    InvIsSafe(c, s);
    SumConstant(s.readers, ReaderSteps, 0);
  }

  // ------------------------------------------------- the claim in the comments

  /** No reader reads one message twice, as the source's comment on semaphore 2 claims. */
  predicate NoRepeat(s: State) {
    forall k, i, j :: 0 <= k < |s.history| && 0 <= i < j < |s.history[k].log| ==>
      s.history[k].log[i].reader != s.history[k].log[j].reader
  }

  lemma Extend(c: Config, run: seq<State>, a: Action) returns (longer: seq<State>)
    requires Runs.IsRun(Program(c), run) && Enabled(c, run[|run| - 1], a)
    ensures Runs.IsRun(Program(c), longer)
    ensures longer[|longer| - 1] == Step(c, run[|run| - 1], a)
  {
    longer := run + [Step(c, run[|run| - 1], a)];
    assert longer[0] == run[0];
    forall i | 0 <= i < |longer| - 1 ensures Next(c, longer[i], longer[i + 1]) {
      if i < |run| - 1 {
        assert longer[i] == run[i] && longer[i + 1] == run[i + 1] && Next(c, run[i], run[i + 1]);
      }
    }
  }

  /** A run through the first message's publication. */
  lemma FirstMessage(c: Config) returns (run: seq<State>)
    requires c.readers > 0 && c.rounds > 0
    ensures Runs.IsRun(Program(c), run)
    ensures run[|run| - 1] == State(
      if 1 < c.rounds then WaitReaders else Drain, 1, seq(c.readers, i => Barrier), 0, c.readers, c.readers, "m", [Round("m", [])])
  {
    run := [Initial(c, "")];
    run := Extend(c, run, TakeReaders);
    run := Extend(c, run, Open);
    run := Extend(c, run, BeginScan(""));
    run := Extend(c, run, EndScan("m"));
    run := Extend(c, run, Post);
  }

  /** Any reader at the barrier can go round once, while there are tokens, on its own. */
  lemma GoRound(c: Config, run: seq<State>, r: nat) returns (longer: seq<State>)
    requires Runs.IsRun(Program(c), run)
    requires var s := run[|run| - 1];
      s.writer != Killed && r < |s.readers| && s.readers[r] == Barrier && s.sem1 > 0 && s.sem2 > 0
    ensures Runs.IsRun(Program(c), longer)
    ensures var s := run[|run| - 1];
      longer[|longer| - 1] == s.(sem0 := s.sem0 + 1, sem1 := s.sem1 - 1, sem2 := s.sem2 - 1,
                                 history := Logged(s.history, Read(r, s.message)))
  {
    var s := run[|run| - 1];
    longer := Extend(c, run, Pass(r));
    longer := Extend(c, longer, Acquire(r));
    longer := Extend(c, longer, ReadMessage(r));
    longer := Extend(c, longer, Done(r));
    assert longer[|longer| - 1].readers == s.readers;
  }

  /** A run in which reader 0 takes the barrier token meant for reader 1. */
  lemma OvertakingRepeats(c: Config) returns (run: seq<State>)
    requires c.readers >= 2 && c.rounds >= 1
    ensures Runs.IsRun(Program(c), run) && !NoRepeat(run[|run| - 1])
  {
    run := FirstMessage(c);
    run := GoRound(c, run, 0);
    run := GoRound(c, run, 0);
    var log := run[|run| - 1].history[0].log;
    assert log == [Read(0, "m"), Read(0, "m")];
    assert log[0].reader == log[1].reader;
  }

  /** The claim of the comment holds exactly when there is a single reader, or nothing to read. */
  lemma NoRepeatExactlyWhen(c: Config)
    requires c.readers > 0
    ensures (forall run: seq<State> :: Runs.IsRun(Program(c), run) ==> NoRepeat(run[|run| - 1]))
            <==> c.readers == 1 || c.rounds == 0
  {
    if c.readers == 1 || c.rounds == 0 {
      forall run: seq<State> | Runs.IsRun(Program(c), run) ensures NoRepeat(run[|run| - 1]) {
        BroadcastSafety(c, run);
        InvHolds(c);
        Runs.Invariant(Program(c), s => Inv(c, s), run);
        assert Inv(c, run[|run| - 1]);
      }
    } else {
      var run := OvertakingRepeats(c);
    }
  }
}
