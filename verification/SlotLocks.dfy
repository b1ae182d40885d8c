/**
  The same buffer with one pair of try-locks per slot instead of semaphores: taking a
  lock is an atomic test-and-set, a failed attempt is repeated, releasing stores 0.
 */
module SlotLocks {
  import opened BoundedQueue
  import Runs
  import Sem = SlotSemaphores

  /** available_slot and available_data are 0 when the lock is free. */
  datatype State = State(
    slotLock: seq<nat>, dataLock: seq<nat>, v: seq<int>,
    producer: Sem.ProducerPc, data: nat, pIndex: nat,
    consumer: Sem.ConsumerPc, expected: nat, cIndex: nat, value: int, taken: seq<int>)

  predicate Start(c: Sem.Config, s: State) {
    && c.size > 0
    && s == State(seq(c.size, i => 0), seq(c.size, i => 1), seq(c.size, i => -1), Sem.Acquire, 0, 0, Sem.Await, 0, 0, s.value, [])
  }

  predicate Shape(c: Sem.Config, s: State) {
    c.size > 0 && |s.slotLock| == |s.dataLock| == |s.v| == c.size && s.pIndex < c.size && s.cIndex < c.size
  }

  predicate Enabled(c: Sem.Config, s: State, a: Sem.Action) {
    && Shape(c, s)
    && match a
       case PAcquire => s.producer == Sem.Acquire
       case PWrite => s.producer == Sem.Write
       case PRelease => s.producer == Sem.Release
       case CAwait => s.consumer == Sem.Await
       case CRead => s.consumer == Sem.Read
       case CCheck => s.consumer == Sem.Check
       case CFree => s.consumer == Sem.Free
  }

  /** lock(): sets a lock that is 0 to 1 and reports whether it did. */
  function TryLock(locks: seq<nat>, i: nat): (r: (bool, seq<nat>))
    requires i < |locks|
  {
    if locks[i] == 0 then (true, locks[i := 1]) else (false, locks)
  }

  function Step(c: Sem.Config, s: State, a: Sem.Action): State
    requires Enabled(c, s, a)
  {
    match a
    case PAcquire => var (ok, locks) := TryLock(s.slotLock, s.pIndex); if ok then s.(slotLock := locks, producer := Sem.Write) else s
    case PWrite => s.(v := s.v[s.pIndex := s.data], producer := Sem.Release)
    case PRelease =>
      s.(dataLock := s.dataLock[s.pIndex := 0], producer := Sem.Acquire, pIndex := (s.pIndex + 1) % c.size, data := s.data + 1)
    case CAwait => var (ok, locks) := TryLock(s.dataLock, s.cIndex); if ok then s.(dataLock := locks, consumer := Sem.Read) else s
    case CRead => s.(value := s.v[s.cIndex], consumer := Sem.Check)
    case CCheck =>
      s.(consumer := if s.value != s.expected then Sem.Broken else if s.value == c.end then Sem.Exited else Sem.Free)
    case CFree =>
      s.(slotLock := s.slotLock[s.cIndex := 0], consumer := Sem.Await,
         cIndex := (s.cIndex + 1) % c.size, expected := s.expected + 1, taken := s.taken + [s.value])
  }

  ghost predicate Next(c: Sem.Config, s: State, t: State) {
    exists a :: Enabled(c, s, a) && t == Step(c, s, a)
  }

  ghost function Program(c: Sem.Config): Runs.System<State> {
    Runs.System(s => Start(c, s), (s, t) => Next(c, s, t))
  }

  // ------------------------------------------------------------------ refinement

  /** A free lock is a semaphore with one token. */
  function Tokens(locks: seq<nat>): seq<nat> {
    seq(|locks|, i requires 0 <= i < |locks| => if locks[i] == 0 then 1 else 0)
  }

  function AsSemaphores(s: State): Sem.State {
    Sem.State(Tokens(s.slotLock), Tokens(s.dataLock), s.v, s.producer, s.data, s.pIndex,
              s.consumer, s.expected, s.cIndex, s.value, s.taken)
  }

  lemma LockIsToken(locks: seq<nat>, i: nat)
    requires i < |locks|
    ensures Tokens(locks[i := 1]) == Tokens(locks)[i := 0]
    ensures Tokens(locks[i := 0]) == Tokens(locks)[i := 1]
  {
  }

  /** A step with locks is the same step with semaphores, or a failed attempt that changes nothing. */
  lemma StepIsSemaphoreStep(c: Sem.Config, s: State, a: Sem.Action)
    requires Enabled(c, s, a) && Sem.Inv(c, AsSemaphores(s))
    ensures var abs, abs' := AsSemaphores(s), AsSemaphores(Step(c, s, a));
      if Sem.Enabled(c, abs, a) then abs' == Sem.Step(c, abs, a) else abs' == abs
  {
    LockIsToken(s.slotLock, s.pIndex);
    LockIsToken(s.slotLock, s.cIndex);
    LockIsToken(s.dataLock, s.pIndex);
    LockIsToken(s.dataLock, s.cIndex);
    var abs := AsSemaphores(s);
    assert abs.expected < abs.expected + c.size && Sem.PlaceOk(c, abs, abs.expected);
    if a == Sem.PRelease { assert Sem.PlaceOk(c, abs, abs.data); }
  }

  lemma StartIsSemaphoreStart(c: Sem.Config, s: State)
    requires Start(c, s)
    ensures Sem.Start(c, AsSemaphores(s))
  {
    assert Tokens(s.slotLock) == seq(c.size, i => 1);
    assert Tokens(s.dataLock) == seq(c.size, i => 0);
  }

  lemma InvHolds(c: Sem.Config)
    ensures Runs.Inductive(Program(c), s => Sem.Inv(c, AsSemaphores(s)))
  {
    forall s: State | Start(c, s) ensures Sem.Inv(c, AsSemaphores(s)) {
      StartIsSemaphoreStart(c, s);
      Sem.StartInv(c, AsSemaphores(s));
    }
    forall s: State, t: State | Sem.Inv(c, AsSemaphores(s)) && Next(c, s, t) ensures Sem.Inv(c, AsSemaphores(t)) {
      var a :| Enabled(c, s, a) && t == Step(c, s, a);
      StepIsSemaphoreStep(c, s, a);
      if Sem.Enabled(c, AsSemaphores(s), a) { Sem.StepInv(c, AsSemaphores(s), a); }
    }
  }

  /** Every run with try-locks is a run of the same queue; the protocol never breaks. */
  lemma RefinesQueue(c: Sem.Config, run: seq<State>, i: nat)
    requires Runs.IsRun(Program(c), run) && i < |run|
    ensures Sem.View(c, AsSemaphores(run[0])) == EMPTY
    ensures i + 1 < |run| ==> Simulates(c.size, Sem.View(c, AsSemaphores(run[i])), Sem.View(c, AsSemaphores(run[i + 1])))
    ensures |Sem.View(c, AsSemaphores(run[i])).items| <= c.size && run[i].taken == seq(run[i].expected, k => k)
    ensures run[i].consumer != Sem.Broken
    ensures run[i].consumer == Sem.Exited ==> run[i].expected == c.end
  {
    ExitsAtEnd(c, run, i);
    InvHolds(c);
    Runs.InvariantAt(Program(c), s => Sem.Inv(c, AsSemaphores(s)), run, i);
    Runs.InvariantAt(Program(c), s => Sem.Inv(c, AsSemaphores(s)), run, 0);
    Sem.ViewIsBetween(c, AsSemaphores(run[0]));
    Sem.ViewIsBetween(c, AsSemaphores(run[i]));
    if i + 1 < |run| {
      assert Next(c, run[i], run[i + 1]);
      var a :| Enabled(c, run[i], a) && run[i + 1] == Step(c, run[i], a);
      StepIsSemaphoreStep(c, run[i], a);
      if Sem.Enabled(c, AsSemaphores(run[i]), a) { Sem.StepSimulates(c, AsSemaphores(run[i]), a); }
    }
  }

  lemma {:induction false} ExitsAtEnd(c: Sem.Config, run: seq<State>, i: nat)
    requires Runs.IsRun(Program(c), run) && i < |run|
    ensures run[i].consumer == Sem.Exited ==> run[i].value == c.end
  {
    if i > 0 {
      ExitsAtEnd(c, run, i - 1);
      assert Next(c, run[i - 1], run[i - 1 + 1]);
    }
  }

  /** Until the consumer has ended there is always an attempt that succeeds or another step that does something. */
  lemma NeverSpinsForever(c: Sem.Config, run: seq<State>, i: nat)
    requires Runs.IsRun(Program(c), run) && i < |run| && run[i].consumer != Sem.Exited
    ensures exists a :: Enabled(c, run[i], a) && Step(c, run[i], a) != run[i]
  {
    InvHolds(c);
    Runs.InvariantAt(Program(c), s => Sem.Inv(c, AsSemaphores(s)), run, i);
    var s := run[i];
    Sem.SomebodyMoves(c, AsSemaphores(s));
    var a :| Sem.Enabled(c, AsSemaphores(s), a);
    assert Enabled(c, s, a);
    StepIsSemaphoreStep(c, s, a);
    assert Sem.Step(c, AsSemaphores(s), a) != AsSemaphores(s);
  }
}
