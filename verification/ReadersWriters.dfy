/**
  One producer rewrites a shared array; any number of consumers sum it up, at most
  NUM_READERS at a time. A consumer ends inside its section: SEM_UNDO then gives its
  token back. Each array element written or added is one step.
 */
module ReadersWriters {
  import opened Counting
  import Runs

  /** SIZE, NUM_READERS, END and the number of consumers. */
  datatype Config = Config(size: nat, permits: nat, end: nat, consumers: nat)

  datatype ProducerPc = AwaitWrite | AwaitReaders | Fill(k: nat) | Reopen | Leave

  datatype ConsumerPc = Gate | Enter | OpenGate | Add(k: nat) | Decide | Exit | Exited

  /** A completed sum, and the last fully written value at that moment. */
  datatype Seen = Seen(sum: int, value: int)

  /** undoW and undoR are the adjustments the system keeps for SEM_UNDO; seen is history. */
  datatype Consumer = Consumer(pc: ConsumerPc, sum: int, rounds: nat, undoW: int, undoR: int, seen: seq<Seen>)

  /** last is history: the value the array was last filled with completely, or its initial 0. */
  datatype State = State(
    semWrite: int, semRead: int, v: seq<int>, producer: ProducerPc, data: int, consumers: seq<Consumer>, last: int)

  datatype Action =
    | TakeWrite | TakeReaders | WriteOne | PostReaders | PostWrite
    | PassGate(i: nat) | TakeRead(i: nat) | FreeGate(i: nat) | AddOne(i: nat) | Decision(i: nat) | GiveBack(i: nat)

  predicate Start(c: Config, s: State) {
    && c.size > 0 && c.permits > 0
    && s == State(1, c.permits, seq(c.size, i => 0), AwaitWrite, 0, seq(c.consumers, i => Consumer(Gate, 0, 1, 0, 0, [])), 0)
  }

  predicate Shape(c: Config, s: State) {
    c.size > 0 && c.permits > 0 && |s.v| == c.size && |s.consumers| == c.consumers
  }

  predicate Enabled(c: Config, s: State, a: Action) {
    && Shape(c, s)
    && match a
       case TakeWrite => s.producer == AwaitWrite && s.semWrite > 0
       case TakeReaders => s.producer == AwaitReaders && s.semRead >= c.permits
       case WriteOne => s.producer.Fill?
       case PostReaders => s.producer == Reopen
       case PostWrite => s.producer == Leave
       case PassGate(i) => i < c.consumers && s.consumers[i].pc == Gate && s.semWrite > 0
       case TakeRead(i) => i < c.consumers && s.consumers[i].pc == Enter && s.semRead > 0
       case FreeGate(i) => i < c.consumers && s.consumers[i].pc == OpenGate
       case AddOne(i) => i < c.consumers && s.consumers[i].pc.Add?
       case Decision(i) => i < c.consumers && s.consumers[i].pc == Decide
       case GiveBack(i) => i < c.consumers && s.consumers[i].pc == Exit
  }

  function Step(c: Config, s: State, a: Action): State
    requires Enabled(c, s, a)
  {
    match a
    case TakeWrite => s.(producer := AwaitReaders, semWrite := s.semWrite - 1)
    case TakeReaders => s.(producer := Fill(0), semRead := s.semRead - c.permits)
    case WriteOne =>
      var k := s.producer.k;
      if k < c.size then s.(v := s.v[k := s.data], producer := Fill(k + 1)) else s.(producer := Reopen, last := s.data)
    case PostReaders => s.(producer := Leave, semRead := s.semRead + c.permits)
    case PostWrite => s.(producer := AwaitWrite, semWrite := s.semWrite + 1, data := s.data + 1)
    case PassGate(i) =>
      var me := s.consumers[i];
      s.(semWrite := s.semWrite - 1, consumers := s.consumers[i := me.(pc := Enter, undoW := me.undoW + 1)])
    case TakeRead(i) =>
      var me := s.consumers[i];
      s.(semRead := s.semRead - 1, consumers := s.consumers[i := me.(pc := OpenGate, undoR := me.undoR + 1)])
    case FreeGate(i) =>
      var me := s.consumers[i];
      s.(semWrite := s.semWrite + 1, consumers := s.consumers[i := me.(pc := Add(0), sum := 0, undoW := me.undoW - 1)])
    case AddOne(i) =>
      var me := s.consumers[i];
      var k := me.pc.k;
      if k < c.size then s.(consumers := s.consumers[i := me.(pc := Add(k + 1), sum := me.sum + s.v[k])])
      else s.(consumers := s.consumers[i := me.(pc := Decide, seen := me.seen + [Seen(me.sum, s.last)])])
    case Decision(i) =>
      var me := s.consumers[i];
      if me.rounds >= c.end
      then s.(semWrite := s.semWrite + me.undoW, semRead := s.semRead + me.undoR,
              consumers := s.consumers[i := me.(pc := Exited, undoW := 0, undoR := 0)])
      else s.(consumers := s.consumers[i := me.(pc := Exit)])
    case GiveBack(i) =>
      var me := s.consumers[i];
      s.(semRead := s.semRead + 1, consumers := s.consumers[i := me.(pc := Gate, undoR := me.undoR - 1, rounds := me.rounds + 1)])
  }

  ghost predicate Next(c: Config, s: State, t: State) {
    exists a :: Enabled(c, s, a) && t == Step(c, s, a)
  }

  ghost function Program(c: Config): Runs.System<State> {
    Runs.System(s => Start(c, s), (s, t) => Next(c, s, t))
  }

  // ------------------------------------------------------------------- invariant

  function Inside(me: Consumer): nat {
    if me.pc == OpenGate || me.pc.Add? || me.pc == Decide || me.pc == Exit then 1 else 0
  }

  function AtGate(me: Consumer): nat { if me.pc == Enter || me.pc == OpenGate then 1 else 0 }

  predicate Writing(pc: ProducerPc) { pc.Fill? || pc == Reopen }

  /** Every read permit is on the semaphore, with a reader inside, or with the producer. */
  predicate ReadLaw(c: Config, s: State) {
    s.semRead >= 0 && s.semRead + Sum(s.consumers, Inside) + (if Writing(s.producer) then c.permits else 0) == c.permits
  }

  predicate WriteLaw(c: Config, s: State) {
    s.semWrite >= 0 && s.semWrite + Sum(s.consumers, AtGate) + (if s.producer == AwaitWrite then 0 else 1) == 1
  }

  predicate ArrayOk(c: Config, s: State) {
    && (s.producer.Fill? ==> s.producer.k <= c.size)
    && (forall k :: 0 <= k < |s.v| ==> s.v[k] == if s.producer.Fill? && k < s.producer.k then s.data else s.last)
    && s.data >= 0
    && s.last == (if s.producer == Reopen || s.producer == Leave then s.data else if s.data == 0 then 0 else s.data - 1)
  }

  predicate SeenOk(c: Config, s: State, seen: seq<Seen>) {
    && (forall j :: 0 <= j < |seen| ==> seen[j].sum == c.size * seen[j].value && seen[j].value <= s.last)
    && (forall j, k :: 0 <= j < k < |seen| ==> seen[j].value <= seen[k].value)
  }

  predicate ConsumerOk(c: Config, s: State, me: Consumer) {
    && me.undoW == AtGate(me) && me.undoR == Inside(me)
    && (me.pc.Add? ==> me.pc.k <= c.size && me.sum == me.pc.k * s.last)
    && SeenOk(c, s, me.seen)
  }

  predicate Inv(c: Config, s: State) {
    && Shape(c, s) && ReadLaw(c, s) && WriteLaw(c, s) && ArrayOk(c, s)
    && forall i :: 0 <= i < c.consumers ==> ConsumerOk(c, s, s.consumers[i])
  }

  lemma StartInv(c: Config, s: State)
    requires Start(c, s)
    ensures Inv(c, s)
  {
    SumConstant(s.consumers, Inside, 0);
    SumConstant(s.consumers, AtGate, 0);
  }

  lemma ProducerInv(c: Config, s: State, a: Action)
    requires Inv(c, s) && Enabled(c, s, a)
    requires a.TakeWrite? || a.TakeReaders? || a.WriteOne? || a.PostReaders? || a.PostWrite?
    ensures Inv(c, Step(c, s, a))
  {
    var t := Step(c, s, a);
    forall i | 0 <= i < c.consumers ensures ConsumerOk(c, t, t.consumers[i]) {
      SumAtLeast(s.consumers, i, Inside);
      assert ConsumerOk(c, s, s.consumers[i]);
    }
  }

  /** A consumer's move: only its own record and the counts change. */
  lemma ConsumerMove(c: Config, s: State, t: State, i: nat)
    requires Inv(c, s) && Shape(c, t) && i < c.consumers && t.consumers == s.consumers[i := t.consumers[i]]
    requires t.v == s.v && t.producer == s.producer && t.data == s.data && t.last == s.last
    requires ConsumerOk(c, t, t.consumers[i])
    requires t.semRead + Inside(t.consumers[i]) == s.semRead + Inside(s.consumers[i]) && t.semRead >= 0
    requires t.semWrite + AtGate(t.consumers[i]) == s.semWrite + AtGate(s.consumers[i]) && t.semWrite >= 0
    ensures Inv(c, t)
  {
    SumUpdate(s.consumers, i, t.consumers[i], Inside);
    SumUpdate(s.consumers, i, t.consumers[i], AtGate);
    forall j | 0 <= j < c.consumers ensures ConsumerOk(c, t, t.consumers[j]) {
      assert ConsumerOk(c, s, s.consumers[j]);
    }
  }

  lemma PassInv(c: Config, s: State, a: Action)
    requires Inv(c, s) && Enabled(c, s, a) && (a.PassGate? || a.TakeRead? || a.FreeGate? || a.GiveBack?)
    ensures Inv(c, Step(c, s, a))
  {
    assert ConsumerOk(c, s, s.consumers[a.i]);
    ConsumerMove(c, s, Step(c, s, a), a.i);
  }

  lemma DecisionInv(c: Config, s: State, i: nat)
    requires Inv(c, s) && Enabled(c, s, Decision(i))
    ensures Inv(c, Step(c, s, Decision(i)))
  {
    assert ConsumerOk(c, s, s.consumers[i]);
    ConsumerMove(c, s, Step(c, s, Decision(i)), i);
  }

  /** While a reader is inside, the array holds one value throughout. */
  lemma Snapshot(c: Config, s: State, i: nat)
    requires Inv(c, s) && i < c.consumers && Inside(s.consumers[i]) == 1
    ensures !Writing(s.producer)
    ensures forall k :: 0 <= k < |s.v| ==> s.v[k] == s.last
  {
    SumAtLeast(s.consumers, i, Inside);
  }

  /** A sum over an array that holds one value throughout is that value as often as there were items. */
  lemma AddOk(c: Config, s: State, i: nat)
    requires Inv(c, s) && Enabled(c, s, AddOne(i))
    ensures var t := Step(c, s, AddOne(i)); |t.consumers| == c.consumers && ConsumerOk(c, t, t.consumers[i])
  {
    var me := s.consumers[i];
    var k := me.pc.k;
    assert ConsumerOk(c, s, me);
    Snapshot(c, s, i);
    assert (k + 1) * s.last == k * s.last + s.last;
  }

  lemma AddInv(c: Config, s: State, i: nat)
    requires Inv(c, s) && Enabled(c, s, AddOne(i))
    ensures Inv(c, Step(c, s, AddOne(i)))
  {
    AddOk(c, s, i);
    ConsumerMove(c, s, Step(c, s, AddOne(i)), i);
  }

  lemma StepInv(c: Config, s: State, a: Action)
    requires Inv(c, s) && Enabled(c, s, a)
    ensures Inv(c, Step(c, s, a))
  {
    match a
    case PassGate(_) => PassInv(c, s, a);
    case TakeRead(_) => PassInv(c, s, a);
    case FreeGate(_) => PassInv(c, s, a);
    case GiveBack(_) => PassInv(c, s, a);
    case Decision(i) => DecisionInv(c, s, i);
    case AddOne(i) => AddInv(c, s, i);
    case _ => ProducerInv(c, s, a);
  }

  lemma InvHolds(c: Config)
    ensures Runs.Inductive(Program(c), s => Inv(c, s))
  {
    forall s: State | Start(c, s) ensures Inv(c, s) { StartInv(c, s); }
    forall s: State, t: State | Inv(c, s) && Next(c, s, t) ensures Inv(c, t) {
      var a :| Enabled(c, s, a) && t == Step(c, s, a);
      StepInv(c, s, a);
    }
  }

  // ------------------------------------------------------------------ whole runs

  /**
    In every run: a completed sum is SIZE times the last fully written value, no consumer
    ever sees an older value than before, and at most NUM_READERS consumers are inside.
   */
  lemma ReadersSeeSnapshots(c: Config, run: seq<State>, i: nat)
    requires Runs.IsRun(Program(c), run) && i < |run|
    ensures var s := run[i];
      && Sum(s.consumers, Inside) <= c.permits
      && (s.producer.Fill? ==> Sum(s.consumers, Inside) == 0)
      && |s.consumers| == c.consumers
      && forall j :: 0 <= j < c.consumers ==> SeenOk(c, s, s.consumers[j].seen)
  {
    InvHolds(c);
    Runs.InvariantAt(Program(c), s => Inv(c, s), run, i);
    forall j | 0 <= j < c.consumers ensures SeenOk(c, run[i], run[i].consumers[j].seen) {
      assert ConsumerOk(c, run[i], run[i].consumers[j]);
    }
  }

  /** A consumer that ends inside its section leaves the semaphores as if it had posted. */
  lemma UndoReturnsTheToken(c: Config, run: seq<State>, i: nat, j: nat)
    requires Runs.IsRun(Program(c), run) && i < |run| && Enabled(c, run[i], Decision(j))
    requires run[i].consumers[j].rounds >= c.end
    ensures var t := Step(c, run[i], Decision(j));
      t.semRead == run[i].semRead + 1 && t.semWrite == run[i].semWrite && ReadLaw(c, t) && WriteLaw(c, t)
  {
    InvHolds(c);
    Runs.InvariantAt(Program(c), s => Inv(c, s), run, i);
    assert ConsumerOk(c, run[i], run[i].consumers[j]);
    StepInv(c, run[i], Decision(j));
  }

  ghost predicate CanMove(c: Config, s: State) { exists a :: Enabled(c, s, a) }

  lemma NeverStuck(c: Config, run: seq<State>, i: nat)
    requires Runs.IsRun(Program(c), run) && i < |run|
    ensures CanMove(c, run[i])
  {
    InvHolds(c);
    Runs.InvariantAt(Program(c), s => Inv(c, s), run, i);
    var s := run[i];
    if
    case s.producer == AwaitWrite && s.semWrite > 0 => assert Enabled(c, s, TakeWrite);
    case s.producer == AwaitReaders && s.semRead >= c.permits => assert Enabled(c, s, TakeReaders);
    case s.producer.Fill? => assert Enabled(c, s, WriteOne);
    case s.producer == Reopen => assert Enabled(c, s, PostReaders);
    case s.producer == Leave => assert Enabled(c, s, PostWrite);
    case s.producer == AwaitWrite && s.semWrite == 0 =>
      var j := SumWitness(s.consumers, AtGate);
      if s.consumers[j].pc == OpenGate {
        assert Enabled(c, s, FreeGate(j));
      } else if s.semRead > 0 {
        assert Enabled(c, s, TakeRead(j));
      } else {
        InsideMoves(c, s);
      }
    case s.producer == AwaitReaders && s.semRead < c.permits => InsideMoves(c, s);
  }

  lemma InsideMoves(c: Config, s: State)
    requires Inv(c, s) && Sum(s.consumers, Inside) > 0
    ensures CanMove(c, s)
  {
    var j := SumWitness(s.consumers, Inside);
    match s.consumers[j].pc
    case OpenGate => assert Enabled(c, s, FreeGate(j));
    case Add(_) => assert Enabled(c, s, AddOne(j));
    case Decide => assert Enabled(c, s, Decision(j));
    case Exit => assert Enabled(c, s, GiveBack(j));
  }
}
