/**
  Standard input cut into chunks of five bytes and dealt round-robin to n files,
  one thread per file, and a signal handler that deals them back while more chunks
  arrive. Two programs: in one each thread passes the turn to its successor, in the
  other every thread returns one common semaphore.
 */
module Scatter {
  import opened Modular
  import Runs

  const SIZE: nat := 5

  /** Whom a thread signals when it has written its chunk. */
  datatype Variant = Ring | Central

  datatype Config = Config(n: nat, variant: Variant, input: nat -> char)

  datatype MainPc = Wait | Fill(j: nat) | Hand

  datatype ThreadPc = Sleep | Write | Signal

  /** The handler; base and count are history: chunks on file when it started, and chunks read. */
  datatype Handler =
    | Idle
    | Gather(i: nat, offsets: seq<nat>, out: string, base: nat, count: nat)
    | Gathered(out: string, base: nat, count: nat)

  /** written counts the chunks on file. */
  datatype State = State(
    main: MainPc, turn: nat, threads: seq<ThreadPc>, semW: seq<nat>, semR: seq<nat>,
    buff: string, files: seq<string>, written: nat, handler: Handler)

  datatype Action =
    | TakeTurn | GetChar | HandOver | Wake(t: nat) | WriteChunk(t: nat) | PassOn(t: nat) | SignalArrives | ReadPiece

  function Unit(n: nat, i: nat): seq<nat> { seq(n, k => if k == i then 1 else 0) }

  function Zero(n: nat): seq<nat> { seq(n, k => 0) }

  /** The semaphore that gives main the right to fill the buffer for file i. */
  function Slot(c: Config, i: nat): nat { if c.variant.Ring? then i else 0 }

  predicate Start(c: Config, s: State) {
    && |s.buff| == SIZE
    && s == State(Wait, 0, seq(c.n, i => Sleep), Unit(c.n, 0), Zero(c.n), s.buff, seq(c.n, i => ""), 0, Idle)
  }

  /** What one read of at most SIZE bytes at the offset returns. */
  function ReadAt(file: string, offset: nat): string {
    if offset >= |file| then "" else if offset + SIZE <= |file| then file[offset..offset + SIZE] else file[offset..]
  }

  predicate Shape(c: Config, s: State) {
    && c.n > 0 && s.turn < c.n && |s.threads| == |s.semW| == |s.semR| == |s.files| == c.n && |s.buff| == SIZE
    && (s.handler.Gather? ==> s.handler.i < c.n && |s.handler.offsets| == c.n)
  }

  predicate Enabled(c: Config, s: State, a: Action) {
    && Shape(c, s)
    && match a
       case TakeTurn => s.main == Wait && s.semW[Slot(c, s.turn)] > 0
       case GetChar => s.main.Fill? && s.main.j < SIZE
       case HandOver => s.main == Hand
       case Wake(t) => t < c.n && s.threads[t] == Sleep && s.semR[t] > 0
       case WriteChunk(t) => t < c.n && s.threads[t] == Write
       case PassOn(t) => t < c.n && s.threads[t] == Signal
       case SignalArrives => !s.handler.Gather?
       case ReadPiece => s.handler.Gather?
  }

  function Step(c: Config, s: State, a: Action): State
    requires Enabled(c, s, a)
  {
    match a
    case TakeTurn => var k := Slot(c, s.turn); s.(main := Fill(0), semW := s.semW[k := s.semW[k] - 1])
    case GetChar =>
      var j := s.main.j;
      s.(main := if j + 1 < SIZE then Fill(j + 1) else Hand, buff := s.buff[j := c.input(SIZE * s.written + j)])
    case HandOver =>
      s.(main := Wait, semR := s.semR[s.turn := s.semR[s.turn] + 1], turn := (s.turn + 1) % c.n)
    case Wake(t) => s.(threads := s.threads[t := Write], semR := s.semR[t := s.semR[t] - 1])
    case WriteChunk(t) =>
      s.(threads := s.threads[t := Signal], files := s.files[t := s.files[t] + s.buff], written := s.written + 1)
    case PassOn(t) =>
      var k := Slot(c, (t + 1) % c.n);
      s.(threads := s.threads[t := Sleep], semW := s.semW[k := s.semW[k] + 1])
    case SignalArrives => s.(handler := Gather(0, Zero(c.n), "", s.written, 0))
    case ReadPiece =>
      var h := s.handler;
      var piece := ReadAt(s.files[h.i], h.offsets[h.i]);
      var out := h.out + piece;
      if (if c.variant.Ring? then |piece| == 0 else |piece| < SIZE) then s.(handler := Gathered(out, h.base, h.count))
      else s.(handler := Gather((h.i + 1) % c.n, h.offsets[h.i := h.offsets[h.i] + |piece|], out, h.base, h.count + 1))
  }

  ghost predicate Next(c: Config, s: State, t: State) {
    exists a :: Enabled(c, s, a) && t == Step(c, s, a)
  }

  ghost function Program(c: Config): Runs.System<State> {
    Runs.System(s => Start(c, s), (s, t) => Next(c, s, t))
  }

  // ------------------------------------------------------------ what is promised

  /** Chunk k of the input. */
  function Chunk(c: Config, k: nat): string { seq(SIZE, j requires j >= 0 => c.input(SIZE * k + j)) }

  /** The first m chunks of the input, as one string. */
  function Prefix(c: Config, m: nat): string { seq(SIZE * m, j requires j >= 0 => c.input(j)) }

  /** File f once m chunks have been dealt. */
  function FileOf(c: Config, f: nat, m: nat): string
    requires c.n > 0
  {
    if m == 0 then "" else FileOf(c, f, m - 1) + (if (m - 1) % c.n == f then Chunk(c, m - 1) else "")
  }

  lemma {:induction false} FileGrows(c: Config, f: nat, m: nat, k: nat)
    requires c.n > 0 && m <= k
    ensures FileOf(c, f, m) <= FileOf(c, f, k)
    decreases k
  {
    if m < k { FileGrows(c, f, m, k - 1); }
  }

  lemma {:induction false} LengthAt(c: Config, f: nat, q: nat)
    requires f < c.n
    ensures |FileOf(c, f, f + q * c.n)| == SIZE * q
  {
    if q == 0 {
      assert q * c.n == 0;
      EmptyBefore(c, f, f);
    } else {
      LengthAt(c, f, q - 1);
      var m := f + (q - 1) * c.n;
      assert f + q * c.n == m + c.n;
      ModuloUnique(c.n, q - 1, f);
      LengthBetween(c, f, q - 1, c.n);
    }
  }

  lemma {:induction false} EmptyBefore(c: Config, f: nat, m: nat)
    requires m <= f < c.n
    ensures FileOf(c, f, m) == ""
  {
    if m > 0 { EmptyBefore(c, f, m - 1); }
  }

  lemma {:induction false} LengthBetween(c: Config, f: nat, q: nat, j: nat)
    requires f < c.n && 0 < j <= c.n
    ensures 0 <= f + q * c.n
    ensures |FileOf(c, f, f + q * c.n + j)| == |FileOf(c, f, f + q * c.n)| + SIZE
  {
    if j == 1 {
      ModuloUnique(c.n, q, f);
    } else {
      LengthBetween(c, f, q, j - 1);
      NotBetween(c.n, q, f, j - 1);
    }
  }

  /** File f holds the chunks f, f + n, f + 2n, ... in that order. */
  lemma FileHoldsEveryNth(c: Config, f: nat, q: nat, m: nat)
    requires f < c.n && f + q * c.n < m
    ensures SIZE * q + SIZE <= |FileOf(c, f, m)|
    ensures FileOf(c, f, m)[SIZE * q..SIZE * q + SIZE] == Chunk(c, f + q * c.n)
  {
    var k := f + q * c.n;
    LengthAt(c, f, q);
    ModuloUnique(c.n, q, f);
    assert FileOf(c, f, k + 1) == FileOf(c, f, k) + Chunk(c, k);
    FileGrows(c, f, k + 1, m);
  }

  // ------------------------------------------------------------------- invariant

  predicate AllSleep(c: Config, s: State) {
    |s.threads| == c.n && forall t :: 0 <= t < c.n ==> s.threads[t] == Sleep
  }

  /** Exactly thread i is out of its sleep, in phase pc. */
  predicate OnlyThread(c: Config, s: State, i: nat, pc: ThreadPc) {
    |s.threads| == c.n && forall t :: 0 <= t < c.n ==> s.threads[t] == if t == i then pc else Sleep
  }

  predicate Filled(c: Config, s: State, j: nat)
    requires |s.buff| == SIZE && j <= SIZE
  {
    forall k :: 0 <= k < j ==> s.buff[k] == c.input(SIZE * s.written + k)
  }

  /** Where the single token is. */
  datatype Holder = AtW | WithMain | AtR | WithThread | Leaving

  predicate Held(c: Config, s: State, h: Holder)
    requires Shape(c, s)
  {
    var k := s.written % c.n;
    match h
    case AtW => s.main == Wait && s.turn == k && AllSleep(c, s) && s.semW == Unit(c.n, Slot(c, k)) && s.semR == Zero(c.n)
    case WithMain =>
      && (s.main.Hand? || (s.main.Fill? && s.main.j < SIZE)) && s.turn == k && AllSleep(c, s)
      && s.semW == Zero(c.n) && s.semR == Zero(c.n)
      && Filled(c, s, if s.main.Fill? then s.main.j else SIZE)
    case AtR =>
      && s.main == Wait && s.turn == (k + 1) % c.n && AllSleep(c, s)
      && s.semW == Zero(c.n) && s.semR == Unit(c.n, k) && Filled(c, s, SIZE)
    case WithThread =>
      && s.main == Wait && s.turn == (k + 1) % c.n && OnlyThread(c, s, k, Write)
      && s.semW == Zero(c.n) && s.semR == Zero(c.n) && Filled(c, s, SIZE)
    case Leaving =>
      && s.main == Wait && s.turn == k && s.written > 0 && OnlyThread(c, s, (s.written - 1) % c.n, Signal)
      && s.semW == Zero(c.n) && s.semR == Zero(c.n)
  }

  predicate FilesOk(c: Config, s: State)
    requires Shape(c, s)
  {
    forall f :: 0 <= f < c.n ==> s.files[f] == FileOf(c, f, s.written)
  }

  predicate HandlerOk(c: Config, s: State)
    requires Shape(c, s)
  {
    match s.handler
    case Idle => true
    case Gather(i, offsets, out, base, count) =>
      && i == count % c.n && out == Prefix(c, count) && base <= s.written && count <= s.written
      && forall f :: 0 <= f < c.n ==> offsets[f] == |FileOf(c, f, count)|
    case Gathered(out, base, count) => out == Prefix(c, count) && base <= count <= s.written
  }

  predicate Inv(c: Config, s: State) {
    && Shape(c, s) && FilesOk(c, s) && HandlerOk(c, s)
    && (Held(c, s, AtW) || Held(c, s, WithMain) || Held(c, s, AtR) || Held(c, s, WithThread) || Held(c, s, Leaving))
  }

  lemma StartInv(c: Config, s: State)
    requires c.n > 0 && Start(c, s)
    ensures Inv(c, s)
  {
    SmallMod(0, c.n);
    assert Held(c, s, AtW);
  }

  lemma MainStep(c: Config, s: State, a: Action)
    requires Inv(c, s) && Enabled(c, s, a) && (a.TakeTurn? || a.GetChar? || a.HandOver?)
    ensures Inv(c, Step(c, s, a))
  {
    var t, k := Step(c, s, a), s.written % c.n;
    match a
    case TakeTurn => assert Held(c, s, AtW) && t.semW == Zero(c.n) && Held(c, t, WithMain);
    case GetChar => assert Held(c, s, WithMain) && Held(c, t, WithMain);
    case HandOver => assert Held(c, s, WithMain) && t.semR == Unit(c.n, k) && Held(c, t, AtR);
  }

  lemma WakeStep(c: Config, s: State, i: nat)
    requires Inv(c, s) && Enabled(c, s, Wake(i))
    ensures Inv(c, Step(c, s, Wake(i)))
  {
    var t := Step(c, s, Wake(i));
    assert Held(c, s, AtR) && i == s.written % c.n;
    assert t.semR == Zero(c.n) && Held(c, t, WithThread);
  }

  lemma WriteStep(c: Config, s: State, i: nat)
    requires Inv(c, s) && Enabled(c, s, WriteChunk(i))
    ensures Inv(c, Step(c, s, WriteChunk(i)))
  {
    var t := Step(c, s, WriteChunk(i));
    assert Held(c, s, WithThread) && i == s.written % c.n;
    assert s.buff == Chunk(c, s.written);
    NextMod(s.written, c.n);
    assert Held(c, t, Leaving);
  }

  lemma PassOnStep(c: Config, s: State, i: nat)
    requires Inv(c, s) && Enabled(c, s, PassOn(i))
    ensures Inv(c, Step(c, s, PassOn(i)))
  {
    var t := Step(c, s, PassOn(i));
    assert Held(c, s, Leaving) && i == (s.written - 1) % c.n;
    NextMod(s.written - 1, c.n);
    assert t.semW == Unit(c.n, Slot(c, s.written % c.n));
    assert Held(c, t, AtW);
  }

  /** The handler only looks. */
  lemma HandlerFrame(c: Config, s: State, h: Handler)
    requires Inv(c, s) && Shape(c, s.(handler := h)) && HandlerOk(c, s.(handler := h))
    ensures Inv(c, s.(handler := h))
  {
    var t := s.(handler := h);
    assert forall p :: Held(c, t, p) == Held(c, s, p);
  }

  lemma SignalStep(c: Config, s: State)
    requires Inv(c, s) && Enabled(c, s, SignalArrives)
    ensures Inv(c, Step(c, s, SignalArrives))
  {
    SmallMod(0, c.n);
    HandlerFrame(c, s, Step(c, s, SignalArrives).handler);
  }

  /** The next piece is exactly the next chunk, if it is on file yet, and nothing otherwise. */
  lemma NextPiece(c: Config, s: State)
    requires Inv(c, s) && s.handler.Gather?
    ensures var h := s.handler;
      ReadAt(s.files[h.i], h.offsets[h.i]) == if h.count < s.written then Chunk(c, h.count) else ""
  {
    var h := s.handler;
    if h.count < s.written {
      FileGrows(c, h.i, h.count + 1, s.written);
      assert FileOf(c, h.i, h.count + 1) == FileOf(c, h.i, h.count) + Chunk(c, h.count);
    }
  }

  lemma ReadStep(c: Config, s: State)
    requires Inv(c, s) && Enabled(c, s, ReadPiece)
    ensures Inv(c, Step(c, s, ReadPiece))
  {
    var t := Step(c, s, ReadPiece);
    NextPiece(c, s);
    if s.handler.count < s.written {
      PieceRead(c, s);
    }
    HandlerFrame(c, s, t.handler);
  }

  lemma PieceRead(c: Config, s: State)
    requires Shape(c, s) && HandlerOk(c, s) && s.handler.Gather? && s.handler.count < s.written
    ensures var h := s.handler;
      HandlerOk(c, s.(handler := Gather((h.i + 1) % c.n, h.offsets[h.i := h.offsets[h.i] + SIZE],
                                        h.out + Chunk(c, h.count), h.base, h.count + 1)))
  {
    var h := s.handler;
    NextMod(h.count, c.n);
    assert Prefix(c, h.count + 1) == h.out + Chunk(c, h.count);
  }

  lemma StepInv(c: Config, s: State, a: Action)
    requires Inv(c, s) && Enabled(c, s, a)
    ensures Inv(c, Step(c, s, a))
  {
    match a
    case Wake(i) => WakeStep(c, s, i);
    case WriteChunk(i) => WriteStep(c, s, i);
    case PassOn(i) => PassOnStep(c, s, i);
    case SignalArrives => SignalStep(c, s);
    case ReadPiece => ReadStep(c, s);
    case TakeTurn => MainStep(c, s, a);
    case GetChar => MainStep(c, s, a);
    case HandOver => MainStep(c, s, a);
  }

  lemma InvHolds(c: Config)
    requires c.n > 0
    ensures Runs.Inductive(Program(c), s => Inv(c, s))
  {
    forall s: State | Start(c, s) ensures Inv(c, s) { StartInv(c, s); }
    forall s: State, t: State | Inv(c, s) && Next(c, s, t) ensures Inv(c, t) {
      var a :| Enabled(c, s, a) && t == Step(c, s, a);
      StepInv(c, s, a);
    }
  }

  // ------------------------------------------------------------------ whole runs

  /**
    In every run of either program every file holds exactly its share of the chunks
    written so far, and while main fills the buffer no chunk is waiting to be written.
   */
  lemma ScatterRuns(c: Config, run: seq<State>, i: nat)
    requires c.n > 0 && Runs.IsRun(Program(c), run) && i < |run|
    ensures var s := run[i];
      && |s.files| == c.n && (forall f :: 0 <= f < c.n ==> s.files[f] == FileOf(c, f, s.written))
      && (s.main.Fill? ==> |s.threads| == |s.semR| == c.n
                           && forall t :: 0 <= t < c.n ==> s.threads[t] == Sleep && s.semR[t] == 0)
  {
    InvHolds(c);
    Runs.InvariantAt(Program(c), s => Inv(c, s), run, i);
  }

  /** Chunks are never unwritten. */
  lemma {:induction false} WrittenGrows(c: Config, run: seq<State>, i: nat, j: nat)
    requires Runs.IsRun(Program(c), run) && i <= j < |run|
    ensures run[i].written <= run[j].written
  {
    forall k | 0 <= k < |run| - 1 ensures run[k].written <= run[k + 1].written {
      assert Next(c, run[k], run[k + 1]);
    }
    Runs.Monotone(Program(c), (s: State, t: State) => s.written <= t.written, run, i, j);
  }

  /**
    The round trip: a handler that has finished printed a prefix of the input, at least
    everything that was on file when it started, whatever was appended meanwhile.
   */
  lemma RoundTrip(c: Config, run: seq<State>, i: nat)
    requires c.n > 0 && Runs.IsRun(Program(c), run) && i < |run| && run[i].handler.Gathered?
    ensures run[i].handler.out == Prefix(c, run[i].handler.count)
    ensures Prefix(c, run[i].handler.base) <= run[i].handler.out <= Prefix(c, run[i].written)
  {
    InvHolds(c);
    Runs.InvariantAt(Program(c), s => Inv(c, s), run, i);
  }

  /** A handler undisturbed by new chunks prints exactly what is on file and then stops. */
  lemma HandlerProgress(c: Config, run: seq<State>, i: nat)
    requires c.n > 0 && Runs.IsRun(Program(c), run) && i < |run| && run[i].handler.Gather?
    ensures Enabled(c, run[i], ReadPiece)
    ensures var h, t := run[i].handler, Step(c, run[i], ReadPiece);
      if h.count < run[i].written
      then t.handler.Gather? && t.handler.count == h.count + 1
      else t.handler == Gathered(Prefix(c, run[i].written), h.base, h.count)
  {
    InvHolds(c);
    Runs.InvariantAt(Program(c), s => Inv(c, s), run, i);
    NextPiece(c, run[i]);
  }

  ghost predicate CanMove(c: Config, s: State) {
    exists a :: Enabled(c, s, a) && a != SignalArrives && a != ReadPiece
  }

  /** The dealing never gets stuck: the token always lets main or a thread go on. */
  lemma NeverStuck(c: Config, run: seq<State>, i: nat)
    requires c.n > 0 && Runs.IsRun(Program(c), run) && i < |run|
    ensures CanMove(c, run[i])
  {
    InvHolds(c);
    Runs.InvariantAt(Program(c), s => Inv(c, s), run, i);
    var s := run[i];
    var k := s.written % c.n;
    if
    case Held(c, s, AtW) => assert Enabled(c, s, TakeTurn);
    case Held(c, s, WithMain) => assert Enabled(c, s, if s.main.Hand? then HandOver else GetChar);
    case Held(c, s, AtR) => assert Enabled(c, s, Wake(k));
    case Held(c, s, WithThread) => assert Enabled(c, s, WriteChunk(k));
    case Held(c, s, Leaving) => assert Enabled(c, s, PassOn((s.written - 1) % c.n));
  }
}
